/** The loops of the session analysis and of the input list (inference_bridge/src/onnx_vitis.rs),
    against their meaning in `SessionLayouts`. */
module SessionLoops {
  import opened Wrappers
  import opened CacheNames
  import opened TensorShapes
  import opened SessionLayouts

  lemma Shift<T>(done: seq<T>, piece: seq<T>, rest: seq<T>)
    ensures done + (piece + rest) == done + piece + rest
  {
  }

  function UnsupportedOf(o: Outlet, known: seq<string>): seq<string> {
    if o.name in known || IsCacheTensorName(o.name) then [] else [o.name]
  }

  /** One declared input: nothing if it has a role, else a cache tensor or an unsupported input. */
  method ScanInput(o: Outlet, known: seq<string>)
    returns (found: seq<CacheTensorSpec>, issues: seq<Issue>, unsupported: seq<string>)
    ensures found == CacheInputOf(o, known) && issues == CacheInputIssueOf(o, known) && unsupported == UnsupportedOf(o, known)
  {
    hide IsCacheTensorName;
    found, issues, unsupported := [], [], [];
    if o.name in known {
      return;
    }
    if !IsCacheTensorName(o.name) {
      unsupported := [o.name];
      return;
    }
    if o.spec.None? {
      issues := [CacheInputInvalid(o.name)];
      return;
    }
    if !IsCacheType(o.spec.value.elementType) {
      issues := [CacheDtypeUnsupported(o.name)];
    }
    found := [CacheTensorSpec(SpecOf(Some(o)).value, "", InferCachePastAxis(o.spec.value.shape))];
  }

  method ScanInputs(inputs: seq<Outlet>, known: seq<string>)
    returns (found: seq<CacheTensorSpec>, issues: seq<Issue>, unsupported: seq<string>)
    ensures found == CacheInputs(inputs, known) && issues == CacheInputIssues(inputs, known)
    ensures unsupported == UnsupportedInputs(inputs, known)
  {
    hide CacheInputOf, CacheInputIssueOf, IsCacheTensorName;
    found, issues, unsupported := [], [], [];
    for i := 0 to |inputs|
      invariant found + CacheInputs(inputs[i..], known) == CacheInputs(inputs, known)
      invariant issues + CacheInputIssues(inputs[i..], known) == CacheInputIssues(inputs, known)
      invariant unsupported + UnsupportedInputs(inputs[i..], known) == UnsupportedInputs(inputs, known)
    {
      var f, s, u := ScanInput(inputs[i], known);
      assert inputs[i..][0] == inputs[i] && inputs[i..][1..] == inputs[i + 1..];
      Shift(found, f, CacheInputs(inputs[i + 1..], known));
      Shift(issues, s, CacheInputIssues(inputs[i + 1..], known));
      Shift(unsupported, u, UnsupportedInputs(inputs[i + 1..], known));
      found, issues, unsupported := found + f, issues + s, unsupported + u;
    }
  }

  /** Fills in the output name of each cache tensor. */
  method MapCacheOutputs(found: seq<CacheTensorSpec>, outputs: seq<string>)
    returns (specs: seq<CacheTensorSpec>, issues: seq<Issue>)
    ensures specs == WithOutputs(found, outputs) && issues == CacheOutputIssues(found, outputs)
  {
    hide ResolveCacheOutputName;
    specs, issues := [], [];
    for i := 0 to |found|
      invariant specs + WithOutputs(found[i..], outputs) == WithOutputs(found, outputs)
      invariant issues + CacheOutputIssues(found[i..], outputs) == CacheOutputIssues(found, outputs)
    {
      assert found[i..][0] == found[i] && found[i..][1..] == found[i + 1..];
      var spec := found[i];
      var missing: seq<Issue> := [];
      var name := ResolveCacheOutputName(spec.input.name, outputs);
      match name {
        case Some(output) => spec := spec.(outputName := output);
        case None => missing := [CacheOutputMissing(spec.input.name)];
      }
      Shift(specs, [spec], WithOutputs(found[i + 1..], outputs));
      Shift(issues, missing, CacheOutputIssues(found[i + 1..], outputs));
      specs, issues := specs + [spec], issues + missing;
    }
  }

  method AnalyzeSession(signature: Signature) returns (layout: Option<SessionLayout>, issues: seq<Issue>)
    ensures (layout, issues) == AnalyzeSessionLayout(signature)
  {
    hide CacheInputs, CacheInputIssues, UnsupportedInputs, InputIdsOutlet, AssignRoles, RoleNames, LogitsOutputName, CacheOutputs,
         WithOutputs, CacheOutputIssues, RoleIssues, SpecOf;
    var outlet := InputIdsOutlet(signature.inputs);
    if outlet.None? {
      return None, [InputIdsMissing];
    }
    if SpecOf(outlet).None? {
      return None, [InputIdsInvalid];
    }
    var roles := AssignRoles(signature.inputs, SpecOf(outlet).value);
    var found, scanned, unsupported := ScanInputs(signature.inputs, RoleNames(roles));
    var refused: seq<Issue> := if unsupported != [] then [InputUnsupported(unsupported)] else [];
    issues := scanned + refused + RoleIssues(roles);
    var logits := LogitsOutputName(signature.outputs);
    if logits.None? {
      return None, issues + [LogitsOutputMissing];
    }
    var outputs := CacheOutputs(signature.outputs);
    var specs, unmapped := MapCacheOutputs(found, outputs);
    if found != [] {
      var none: seq<Issue> := if outputs == [] then [CacheOutputMissing("")] else [];
      Shift(issues, none, unmapped);
      issues := issues + none + unmapped;
    } else {
      assert issues + [] == issues;
    }
    if issues != [] {
      return None, issues;
    }
    layout := Some(SessionLayout(roles.inputIds, roles.attentionMask, roles.positionIds, roles.tokenTypeIds,
                                 roles.cachePosition, roles.useCache, logits.value, specs));
  }

  method InitializeCache(layout: SessionLayout, pastLen: nat, allowZero: bool) returns (r: Result<CacheState, ModelError>)
    ensures r == InitializeCacheState(layout, pastLen, allowZero)
  {
    hide InitialTensor;
    var specs := layout.cacheSpecs;
    var state: CacheState := map[];
    for i := 0 to |specs|
      invariant InitializeFrom(specs[i..], pastLen, allowZero, state) == InitializeFrom(specs, pastLen, allowZero, map[])
    {
      assert specs[i..][0] == specs[i] && specs[i..][1..] == specs[i + 1..];
      var tensor := InitialTensor(specs[i], pastLen, allowZero);
      if tensor.Failure? {
        return Failure(tensor.error);
      }
      state := state[specs[i].input.name := tensor.value];
    }
    r := Success(state);
  }

  /** The cache tensors, in the layout's order, after the inputs already listed. */
  method PushCacheTensors(specs: seq<CacheTensorSpec>, state: CacheState, before: seq<NamedTensor>)
    returns (r: Result<seq<NamedTensor>, ModelError>)
    ensures r == Append(Success(before), CacheTensorInputs(specs, state))
  {
    var inputs := before;
    for i := 0 to |specs|
      invariant Append(Success(inputs), CacheTensorInputs(specs[i..], state)) == Append(Success(before), CacheTensorInputs(specs, state))
    {
      assert specs[i..][0] == specs[i] && specs[i..][1..] == specs[i + 1..];
      var name := specs[i].input.name;
      if name !in state {
        return Failure(CacheStateMissing(name));
      }
      PushFirst(inputs, (name, state[name]), CacheTensorInputs(specs[i + 1..], state));
      inputs := inputs + [(name, state[name])];
    }
    assert inputs + [] == inputs;
    r := Success(inputs);
  }

  lemma PushFirst(inputs: seq<NamedTensor>, input: NamedTensor, rest: Result<seq<NamedTensor>, ModelError>)
    ensures Append(Success(inputs), Append(Success([input]), rest)) == Append(Success(inputs + [input]), rest)
  {
    if rest.Success? {
      assert inputs + ([input] + rest.value) == inputs + [input] + rest.value;
    }
  }

  method BuildInputs(layout: SessionLayout, ids: seq<int>, attentionLen: nat, branch: bool, state: CacheState)
    returns (r: Result<seq<NamedTensor>, ModelError>)
    ensures r == BuildModelInputs(layout, ids, attentionLen, branch, state)
  {
    hide IntInput, UseCacheInput, OptionalIntInput, CacheTensorInputs, PositionValues;
    var positions := PositionValues(layout, |ids|, attentionLen);
    r := IntInput(layout.inputIds, ids);
    r := Append(r, OptionalIntInput(layout.attentionMask, seq(Max1(attentionLen), _ => 1)));
    r := Append(r, OptionalIntInput(layout.positionIds, positions));
    r := Append(r, OptionalIntInput(layout.tokenTypeIds, seq(Max1(|ids|), _ => 0)));
    r := Append(r, OptionalIntInput(layout.cachePosition, positions));
    r := Append(r, UseCacheInput(layout.useCache, branch));
    if r.Failure? {
      return;
    }
    if IncludesCache(layout, branch, state) {
      r := PushCacheTensors(layout.cacheSpecs, state, r.value);
    } else {
      assert r.value + [] == r.value;
    }
  }
}
