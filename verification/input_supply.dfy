/** A runnable layout supplies every declared input of its model exactly once. */
module InputSupply {
  import opened Wrappers
  import opened Text
  import opened CacheNames
  import opened TensorShapes
  import opened SessionLayouts

  function Names(inputs: seq<NamedTensor>): (r: seq<string>)
    ensures |r| == |inputs| && forall i :: 0 <= i < |r| ==> r[i] == inputs[i].0
  {
    seq(|inputs|, i requires 0 <= i < |inputs| => inputs[i].0)
  }

  function Declared(inputs: seq<Outlet>): (r: seq<string>)
    ensures |r| == |inputs| && forall i :: 0 <= i < |r| ==> r[i] == inputs[i].name
  {
    seq(|inputs|, i requires 0 <= i < |inputs| => inputs[i].name)
  }

  function CacheInputNames(specs: seq<CacheTensorSpec>): (r: seq<string>)
    ensures |r| == |specs| && forall i :: 0 <= i < |r| ==> r[i] == specs[i].input.name
  {
    seq(|specs|, i requires 0 <= i < |specs| => specs[i].input.name)
  }

  ghost predicate Distinct(names: seq<string>) {
    forall i, j :: 0 <= i < j < |names| ==> names[i] != names[j]
  }

  /** The analysis reports a failure exactly when it withholds the layout. */
  lemma LayoutIffNoIssue(signature: Signature)
    ensures AnalyzeSessionLayout(signature).0.Some? <==> AnalyzeSessionLayout(signature).1 == []
  {
  }

  predicate TypesSupported(roles: Roles) {
    && IsSequenceType(roles.inputIds.elementType)
    && (forall spec | spec in {roles.attentionMask, roles.positionIds, roles.tokenTypeIds, roles.cachePosition} ::
          spec.Some? ==> IsSequenceType(spec.value.elementType))
    && (roles.useCache.Some? ==> IsUseCacheType(roles.useCache.value.elementType))
  }

  /** A cache tensor of a supported type, for which some cache output is found. */
  predicate IsServedCacheInput(o: Outlet, outputs: seq<string>) {
    && IsCacheTensorName(o.name) && o.spec.Some? && IsCacheType(o.spec.value.elementType)
    && ResolveCacheOutputName(o.name, CacheOutputs(outputs)).Some?
  }

  /** What a model must declare for the runtime to drive it. */
  predicate IsDrivable(signature: Signature) {
    var ids := SpecOf(InputIdsOutlet(signature.inputs));
    && ids.Some?
    && var roles := AssignRoles(signature.inputs, ids.value);
       && TypesSupported(roles)
       && (forall o | o in signature.inputs :: o.name in RoleNames(roles) || IsServedCacheInput(o, signature.outputs))
       && LogitsOutputName(signature.outputs).Some?
  }

  lemma {:induction false} ScanFindsNothingExactly(inputs: seq<Outlet>, known: seq<string>, outputs: seq<string>)
    ensures (forall o | o in inputs :: o.name in known || IsServedCacheInput(o, outputs))
      <==> CacheInputIssues(inputs, known) == [] && UnsupportedInputs(inputs, known) == []
           && forall spec | spec in CacheInputs(inputs, known) :: ResolveCacheOutputName(spec.input.name, CacheOutputs(outputs)).Some?
  {
    hide IsCacheTensorName, ResolveCacheOutputName, InferCachePastAxis, IsCacheType, CacheOutputs;
    if inputs != [] {
      var o, rest := inputs[0], inputs[1..];
      ScanFindsNothingExactly(rest, known, outputs);
      assert inputs == [o] + rest;
      assert CacheInputs(inputs, known) == CacheInputOf(o, known) + CacheInputs(rest, known);
    }
  }

  lemma TypesSupportedExactly(roles: Roles)
    ensures RoleIssues(roles) == [] <==> TypesSupported(roles)
  {
  }

  /** The analysis returns a layout exactly for the models the runtime can drive, and reports a
      failure for every other one. */
  lemma LayoutExactlyIfDrivable(signature: Signature)
    ensures AnalyzeSessionLayout(signature).0.Some? <==> IsDrivable(signature)
    ensures AnalyzeSessionLayout(signature).1 == [] <==> IsDrivable(signature)
  {
    hide InputIdsOutlet, AssignRoles, RoleNames, CacheInputs, CacheInputIssues, UnsupportedInputs, RoleIssues, TypesSupported,
         IsServedCacheInput, ResolveCacheOutputName, CacheOutputs, LogitsOutputName;
    LayoutIffNoIssue(signature);
    var ids := SpecOf(InputIdsOutlet(signature.inputs));
    if ids.Some? {
      var roles := AssignRoles(signature.inputs, ids.value);
      TypesSupportedExactly(roles);
      ScanFindsNothingExactly(signature.inputs, RoleNames(roles), signature.outputs);
      NoCacheOutputs(CacheInputs(signature.inputs, RoleNames(roles)), signature.outputs);
    }
  }

  /** Without cache outputs no cache input is served. */
  lemma NoCacheOutputs(found: seq<CacheTensorSpec>, outputs: seq<string>)
    ensures found != [] && CacheOutputs(outputs) == [] ==>
      exists spec :: spec in found && ResolveCacheOutputName(spec.input.name, CacheOutputs(outputs)).None?
  {
    if found != [] && CacheOutputs(outputs) == [] {
      UnresolvedExactly(found[0].input.name, []);
      assert found[0] in found;
    }
  }

  // ---- what a returned layout says about the signature ----

  lemma {:induction false} CacheInputsAre(inputs: seq<Outlet>, known: seq<string>)
    requires Distinct(Declared(inputs)) && CacheInputIssues(inputs, known) == []
    ensures var names := CacheInputNames(CacheInputs(inputs, known));
            && Distinct(names)
            && forall name :: name in names <==> name in Declared(inputs) && name !in known && IsCacheTensorName(name)
  {
    if inputs != [] {
      var o, rest := inputs[0], inputs[1..];
      DistinctTail(inputs);
      var piece, tail := CacheInputNames(CacheInputOf(o, known)), CacheInputNames(CacheInputs(rest, known));
      assert piece == if o.name !in known && IsCacheTensorName(o.name) then [o.name] else [];
      CacheInputsAre(rest, known);
      hide CacheInputOf, Distinct, IsCacheTensorName, CacheInputIssueOf;
      CacheNamesConcat(CacheInputOf(o, known), CacheInputs(rest, known));
      if piece == [] {
        assert piece + tail == tail;
      } else {
        DistinctCons(o.name, tail);
      }
    }
  }

  lemma CacheNamesConcat(a: seq<CacheTensorSpec>, b: seq<CacheTensorSpec>)
    ensures CacheInputNames(a + b) == CacheInputNames(a) + CacheInputNames(b)
  {
  }

  lemma DistinctTail(inputs: seq<Outlet>)
    requires inputs != [] && Distinct(Declared(inputs))
    ensures Declared(inputs) == [inputs[0].name] + Declared(inputs[1..])
    ensures Distinct(Declared(inputs[1..])) && inputs[0].name !in Declared(inputs[1..])
  {
    var all, rest := Declared(inputs), Declared(inputs[1..]);
    assert forall i :: 0 <= i < |rest| ==> rest[i] == all[i + 1];
  }

  lemma DistinctCons(name: string, names: seq<string>)
    requires Distinct(names) && name !in names
    ensures Distinct([name] + names)
  {
  }

  function RolesOf(layout: SessionLayout): Roles {
    Roles(layout.inputIds, layout.attentionMask, layout.positionIds, layout.tokenTypeIds,
          layout.cachePosition, layout.useCache)
  }

  lemma {:induction false} OutputsKeepNames(specs: seq<CacheTensorSpec>, outputs: seq<string>)
    ensures CacheInputNames(WithOutputs(specs, outputs)) == CacheInputNames(specs)
  {
  }

  /** Everything the layout supplies, in order. */
  function Supplied(layout: SessionLayout): seq<string> {
    RoleNames(RolesOf(layout)) + CacheInputNames(layout.cacheSpecs)
  }

  lemma RoleNamesAreDeclared(inputs: seq<Outlet>, roles: Roles)
    requires InputIdsOutlet(inputs).Some? && SpecOf(InputIdsOutlet(inputs)).Some?
    requires roles == AssignRoles(inputs, SpecOf(InputIdsOutlet(inputs)).value)
    ensures forall name | name in RoleNames(roles) :: name in Declared(inputs)
  {
    forall o | o in inputs
      ensures o.name in Declared(inputs)
    {
      var i :| 0 <= i < |inputs| && inputs[i] == o;
      assert Declared(inputs)[i] == o.name;
    }
  }

  /** What the analysis found on the way to a layout. */
  lemma LayoutParts(signature: Signature, layout: SessionLayout)
    requires AnalyzeSessionLayout(signature).0 == Some(layout)
    ensures SpecOf(InputIdsOutlet(signature.inputs)) == Some(layout.inputIds)
    ensures RolesOf(layout) == AssignRoles(signature.inputs, layout.inputIds)
    ensures var known := RoleNames(RolesOf(layout));
            && CacheInputIssues(signature.inputs, known) == []
            && UnsupportedInputs(signature.inputs, known) == []
            && layout.cacheSpecs == WithOutputs(CacheInputs(signature.inputs, known), CacheOutputs(signature.outputs))
  {
  }

  lemma SuppliedAreDeclared(signature: Signature, layout: SessionLayout)
    requires Distinct(Declared(signature.inputs)) && AnalyzeSessionLayout(signature).0 == Some(layout)
    ensures forall name :: name in Supplied(layout) <==> name in Declared(signature.inputs)
    ensures Distinct(CacheInputNames(layout.cacheSpecs))
    ensures forall name | name in CacheInputNames(layout.cacheSpecs) :: name !in RoleNames(RolesOf(layout))
  {
    LayoutParts(signature, layout);
    var inputs := signature.inputs;
    var known := RoleNames(RolesOf(layout));
    OutputsKeepNames(CacheInputs(inputs, known), CacheOutputs(signature.outputs));
    CacheInputsAre(inputs, known);
    RoleNamesAreDeclared(inputs, RolesOf(layout));
    forall name | name in Declared(inputs)
      ensures name in known || IsCacheTensorName(name)
    {
      var i :| 0 <= i < |inputs| && Declared(inputs)[i] == name;
      assert inputs[i] in inputs;
    }
  }

  // ---- exactly once ----

  predicate HasOtherRole(name: string) {
    || name == "attention_mask" || name == "position_ids" || name == "token_type_ids"
    || IsCachePositionInputName(name) || IsUseCacheInputName(name)
  }

  /** No `input_ids` or `tokens`, and the input taken in their place has a role already. */
  predicate FirstInputHasTwoRoles(inputs: seq<Outlet>) {
    && inputs != []
    && (forall i :: 0 <= i < |inputs| ==> inputs[i].name != "input_ids" && inputs[i].name != "tokens")
    && HasOtherRole(inputs[0].name)
  }

  lemma RoleWordsDiffer()
    ensures "attention_mask" != "position_ids" && "attention_mask" != "token_type_ids" && "position_ids" != "token_type_ids"
    ensures forall word | word in ["attention_mask", "position_ids", "token_type_ids", "input_ids", "tokens"] ::
              !IsCachePositionInputName(word) && !IsUseCacheInputName(word)
    ensures forall word | word in ["input_ids", "tokens"] :: !HasOtherRole(word)
    ensures forall name :: IsCachePositionInputName(name) ==> !IsUseCacheInputName(name)
  {
    assert Lower("attention_mask") == "attention_mask" && Lower("position_ids") == "position_ids";
    assert Lower("token_type_ids") == "token_type_ids" && Lower("input_ids") == "input_ids" && Lower("tokens") == "tokens";
    assert "attention_mask"[0] != "position_ids"[0] && "attention_mask"[0] != "token_type_ids"[0];
    assert "input_ids"[0] == 'i' && "tokens"[1] == 'o' && "token_type_ids"[5] == '_' && |"tokens"| == 6;
    assert "cache_position"[0] == 'c' && "use_cache"[0] == 'u' && "use_cache_branch"[0] == 'u';
  }

  lemma RolesSatisfyTests(inputs: seq<Outlet>, roles: Roles)
    requires roles == AssignRoles(inputs, roles.inputIds)
    ensures forall name | name in NameOf(roles.attentionMask) :: name == "attention_mask"
    ensures forall name | name in NameOf(roles.positionIds) :: name == "position_ids"
    ensures forall name | name in NameOf(roles.tokenTypeIds) :: name == "token_type_ids"
    ensures forall name | name in NameOf(roles.cachePosition) :: IsCachePositionInputName(name)
    ensures forall name | name in NameOf(roles.useCache) :: IsUseCacheInputName(name)
  {
  }

  lemma OtherNamesDiffer(inputs: seq<Outlet>, roles: Roles)
    requires roles == AssignRoles(inputs, roles.inputIds)
    ensures Distinct(OtherNames(roles)) && forall name | name in OtherNames(roles) :: HasOtherRole(name)
  {
    RoleWordsDiffer();
    RolesSatisfyTests(inputs, roles);
    var two := NameOf(roles.attentionMask) + NameOf(roles.positionIds);
    DistinctConcat(NameOf(roles.attentionMask), NameOf(roles.positionIds));
    var three := two + NameOf(roles.tokenTypeIds);
    DistinctConcat(two, NameOf(roles.tokenTypeIds));
    var four := three + NameOf(roles.cachePosition);
    DistinctConcat(three, NameOf(roles.cachePosition));
    DistinctConcat(four, NameOf(roles.useCache));
  }

  lemma FirstSatisfier(inputs: seq<Outlet>, test: string -> bool)
    requires inputs != [] && test(inputs[0].name) && inputs[0].spec.Some?
    ensures Role(inputs, test) == SpecOf(Some(inputs[0]))
  {
  }

  /** If the first input is the token input and has another role, it is found for that role. */
  lemma FirstInputDoubles(inputs: seq<Outlet>, roles: Roles)
    requires inputs != [] && SpecOf(Some(inputs[0])) == Some(roles.inputIds)
    requires roles == AssignRoles(inputs, roles.inputIds) && HasOtherRole(roles.inputIds.name)
    ensures roles.inputIds.name in OtherNames(roles)
  {
    var name := roles.inputIds.name;
    if name == "attention_mask" {
      FirstSatisfier(inputs, n => n == "attention_mask");
      assert name in NameOf(roles.attentionMask);
    } else if name == "position_ids" {
      FirstSatisfier(inputs, n => n == "position_ids");
      assert name in NameOf(roles.positionIds);
    } else if name == "token_type_ids" {
      FirstSatisfier(inputs, n => n == "token_type_ids");
      assert name in NameOf(roles.tokenTypeIds);
    } else if IsCachePositionInputName(name) {
      FirstSatisfier(inputs, n => IsCachePositionInputName(n));
      assert name in NameOf(roles.cachePosition);
    } else {
      FirstSatisfier(inputs, n => IsUseCacheInputName(n));
      assert name in NameOf(roles.useCache);
    }
  }

  lemma TokenInputIs(inputs: seq<Outlet>)
    requires inputs != []
    ensures var o := InputIdsOutlet(inputs).value;
            if forall i :: 0 <= i < |inputs| ==> inputs[i].name != "input_ids" && inputs[i].name != "tokens"
            then o == inputs[0] else o.name == "input_ids" || o.name == "tokens"
  {
  }

  /** The token input doubles as another one exactly under the condition above. */
  lemma TokensDoubleExactly(inputs: seq<Outlet>, roles: Roles)
    requires SpecOf(InputIdsOutlet(inputs)) == Some(roles.inputIds)
    requires roles == AssignRoles(inputs, roles.inputIds)
    ensures FirstInputHasTwoRoles(inputs) <==> roles.inputIds.name in OtherNames(roles)
  {
    TokenInputIs(inputs);
    if FirstInputHasTwoRoles(inputs) {
      FirstInputDoubles(inputs, roles);
    } else if roles.inputIds.name in OtherNames(roles) {
      OtherNamesDiffer(inputs, roles);
      RoleWordsDiffer();
    }
  }

  lemma {:induction false} CountOfDistinct(names: seq<string>, name: string)
    requires Distinct(names)
    ensures multiset(names)[name] == if name in names then 1 else 0
  {
    if names == [] {
    } else {
      var rest := names[1..];
      assert names == [names[0]] + rest;
      forall i, j | 0 <= i < j < |rest|
        ensures rest[i] != rest[j]
      {
        assert names[i + 1] != names[j + 1];
      }
      assert names[0] !in rest;
      CountOfDistinct(rest, name);
      assert multiset(names) == multiset([names[0]]) + multiset(rest);
    }
  }

  lemma DistinctConcat(a: seq<string>, b: seq<string>)
    requires Distinct(a) && Distinct(b) && forall name | name in b :: name !in a
    ensures Distinct(a + b)
  {
    forall i, j | 0 <= i < j < |a + b|
      ensures (a + b)[i] != (a + b)[j]
    {
      if i < |a| <= j {
        assert b[j - |a|] in b && a[i] in a;
      }
    }
  }

  /** Two lists of the same names, one without repetition, agree as multisets exactly when the other
      has none either. */
  lemma SameNamesOnce(name: string, others: seq<string>, caches: seq<string>, declared: seq<string>)
    requires Distinct(declared) && Distinct(others) && Distinct(caches)
    requires forall n | n in caches :: n !in [name] + others
    requires forall n :: n in ([name] + others) + caches <==> n in declared
    ensures multiset(([name] + others) + caches) == multiset(declared) <==> name !in others
  {
    if name in others {
      CountOfDistinct(declared, name);
      CountOfDistinct(others, name);
      assert multiset(([name] + others) + caches)[name] >= 2;
    } else {
      DistinctConcat([name], others);
      DistinctConcat([name] + others, caches);
      forall n: string
        ensures multiset(([name] + others) + caches)[n] == multiset(declared)[n]
      {
        CountOfDistinct(([name] + others) + caches, n);
        CountOfDistinct(declared, n);
      }
    }
  }

  /** Every declared input is supplied once, exactly when the token input has no second role. */
  lemma SuppliedOnceExactly(signature: Signature, layout: SessionLayout)
    requires Distinct(Declared(signature.inputs)) && AnalyzeSessionLayout(signature).0 == Some(layout)
    ensures multiset(Supplied(layout)) == multiset(Declared(signature.inputs))
            <==> !FirstInputHasTwoRoles(signature.inputs)
  {
    SuppliedAreDeclared(signature, layout);
    LayoutParts(signature, layout);
    var roles := RolesOf(layout);
    OtherNamesDiffer(signature.inputs, roles);
    TokensDoubleExactly(signature.inputs, roles);
    SameNamesOnce(layout.inputIds.name, OtherNames(roles), CacheInputNames(layout.cacheSpecs), Declared(signature.inputs));
  }

  const MASK_ONLY := Signature([Outlet("attention_mask", Some(TensorSpec(Int64, [1, -1])))], ["logits"])
  const MASK := InputSpec("attention_mask", Int64, [1, -1])

  lemma MaskOnlyRoles()
    ensures SpecOf(InputIdsOutlet(MASK_ONLY.inputs)) == Some(MASK)
    ensures AssignRoles(MASK_ONLY.inputs, MASK) == Roles(MASK, Some(MASK), None, None, None, None)
  {
    RoleWordsDiffer();
    assert MASK_ONLY.inputs[1..] == [];
  }

  /** A signature whose one input is supplied twice. */
  lemma InputsCanBeSuppliedTwice() returns (layout: SessionLayout)
    ensures AnalyzeSessionLayout(MASK_ONLY).0 == Some(layout)
    ensures Declared(MASK_ONLY.inputs) == ["attention_mask"] && Supplied(layout) == ["attention_mask", "attention_mask"]
    ensures FirstInputHasTwoRoles(MASK_ONLY.inputs)
  {
    MaskOnlyRoles();
    var roles := Roles(MASK, Some(MASK), None, None, None, None);
    assert TypesSupported(roles) && RoleNames(roles) == ["attention_mask", "attention_mask"];
    assert LogitsOutputName(MASK_ONLY.outputs) == Some("logits");
    LayoutExactlyIfDrivable(MASK_ONLY);
    layout := AnalyzeSessionLayout(MASK_ONLY).0.value;
    MaskOnlyLayout(layout);
    assert "attention_mask" != "input_ids" && "attention_mask" != "tokens";
  }

  lemma MaskOnlyLayout(layout: SessionLayout)
    requires AnalyzeSessionLayout(MASK_ONLY).0 == Some(layout)
    ensures Supplied(layout) == ["attention_mask", "attention_mask"]
  {
    MaskOnlyRoles();
    hide AssignRoles, InputIdsOutlet;
    assert MASK_ONLY.inputs[1..] == [];
    assert CacheInputs(MASK_ONLY.inputs, RoleNames(Roles(MASK, Some(MASK), None, None, None, None))) == [];
  }

  // ---- the list actually built ----

  lemma {:induction false} CacheTensorNames(specs: seq<CacheTensorSpec>, state: CacheState)
    requires CacheTensorInputs(specs, state).Success?
    ensures Names(CacheTensorInputs(specs, state).value) == CacheInputNames(specs)
  {
    if specs == [] {
    } else {
      CacheTensorNames(specs[1..], state);
      assert CacheInputNames(specs) == [specs[0].input.name] + CacheInputNames(specs[1..]);
    }
  }

  lemma AppendNames(first: Result<seq<NamedTensor>, ModelError>, second: Result<seq<NamedTensor>, ModelError>)
    requires Append(first, second).Success?
    ensures first.Success? && second.Success?
    ensures Names(Append(first, second).value) == Names(first.value) + Names(second.value)
  {
  }

  /** The built list names the inputs with a role, and the cache tensors when they are included. */
  lemma BuiltNames(layout: SessionLayout, ids: seq<int>, attentionLen: nat, branch: bool, state: CacheState)
    requires BuildModelInputs(layout, ids, attentionLen, branch, state).Success?
    ensures Names(BuildModelInputs(layout, ids, attentionLen, branch, state).value)
         == RoleNames(RolesOf(layout)) + if IncludesCache(layout, branch, state) then CacheInputNames(layout.cacheSpecs) else []
  {
    var positions := PositionValues(layout, |ids|, attentionLen);
    var r0 := IntInput(layout.inputIds, ids);
    var i1 := OptionalIntInput(layout.attentionMask, seq(Max1(attentionLen), _ => 1));
    var i2 := OptionalIntInput(layout.positionIds, positions);
    var i3 := OptionalIntInput(layout.tokenTypeIds, seq(Max1(|ids|), _ => 0));
    var i4 := OptionalIntInput(layout.cachePosition, positions);
    var i5 := UseCacheInput(layout.useCache, branch);
    var i6 := if IncludesCache(layout, branch, state) then CacheTensorInputs(layout.cacheSpecs, state) else Success([]);
    var r1 := Append(r0, i1);
    var r2 := Append(r1, i2);
    var r3 := Append(r2, i3);
    var r4 := Append(r3, i4);
    var r5 := Append(r4, i5);
    AppendNames(r5, i6);
    AppendNames(r4, i5);
    AppendNames(r3, i4);
    AppendNames(r2, i3);
    AppendNames(r1, i2);
    AppendNames(r0, i1);
    BuiltRoleNames(layout, Names(r0.value), Names(i1.value), Names(i2.value), Names(i3.value), Names(i4.value), Names(i5.value));
    if IncludesCache(layout, branch, state) {
      CacheTensorNames(layout.cacheSpecs, state);
    }
  }

  lemma BuiltRoleNames(layout: SessionLayout, n0: seq<string>, n1: seq<string>, n2: seq<string>, n3: seq<string>,
                       n4: seq<string>, n5: seq<string>)
    requires n0 == [layout.inputIds.name] && n1 == NameOf(layout.attentionMask) && n2 == NameOf(layout.positionIds)
    requires n3 == NameOf(layout.tokenTypeIds) && n4 == NameOf(layout.cachePosition) && n5 == NameOf(layout.useCache)
    ensures n0 + n1 + n2 + n3 + n4 + n5 == RoleNames(RolesOf(layout))
  {
    hide NameOf;
    Associates(n0, n1, n2);
    Associates(n0, n1 + n2, n3);
    Associates(n0, n1 + n2 + n3, n4);
    Associates(n0, n1 + n2 + n3 + n4, n5);
  }

  lemma Associates(a: seq<string>, b: seq<string>, c: seq<string>)
    ensures a + b + c == a + (b + c)
  {
  }

  /** From the signature to the run: with the state made by `initialize_cache_state`, a call that
      includes the cache hands over each declared input exactly once. */
  lemma DeclaredInputsAreSuppliedOnce(signature: Signature, layout: SessionLayout, ids: seq<int>, attentionLen: nat,
                                      branch: bool, allowZero: bool)
    requires Distinct(Declared(signature.inputs)) && AnalyzeSessionLayout(signature).0 == Some(layout)
    requires branch || layout.useCache.None?
    requires InitializeCacheState(layout, 0, allowZero).Success?
    requires var state := InitializeCacheState(layout, 0, allowZero).value;
             BuildModelInputs(layout, ids, attentionLen, branch, state).Success?
    ensures var state := InitializeCacheState(layout, 0, allowZero).value;
            var built := BuildModelInputs(layout, ids, attentionLen, branch, state).value;
            multiset(Names(built)) == multiset(Declared(signature.inputs))
            <==> !FirstInputHasTwoRoles(signature.inputs)
  {
    var state := InitializeCacheState(layout, 0, allowZero).value;
    if layout.cacheSpecs != [] {
      assert layout.cacheSpecs[0].input.name in state;
    }
    BuiltNames(layout, ids, attentionLen, branch, state);
    SuppliedOnceExactly(signature, layout);
  }
}
