/** What the session analysis complains about (inference_bridge/src/onnx_vitis.rs): each reason is reported
    exactly if it holds. */
module SessionIssues {
  import opened Wrappers
  import opened Text
  import opened CacheNames
  import opened SessionLayouts
  import opened InputSupply

  /** An input with no role of its own that is named like a cache tensor. */
  predicate IsCacheInput(o: Outlet, known: seq<string>) {
    o.name !in known && IsCacheTensorName(o.name)
  }

  lemma {:induction false} ScanIssuesExactly(inputs: seq<Outlet>, known: seq<string>, issue: Issue)
    ensures issue in CacheInputIssues(inputs, known) <==>
      exists o :: o in inputs && IsCacheInput(o, known)
        && (|| (issue == CacheInputInvalid(o.name) && o.spec.None?)
            || (issue == CacheDtypeUnsupported(o.name) && o.spec.Some? && o.spec.value.elementType == OtherType))
  {
    hide IsCacheTensorName;
    if inputs != [] {
      var o, rest := inputs[0], inputs[1..];
      ScanIssuesExactly(rest, known, issue);
      assert forall x :: x in inputs <==> x == o || x in rest;
      assert IsCacheInput(o, known) ==> o in inputs;
    }
  }

  lemma {:induction false} CacheInputsExactly(inputs: seq<Outlet>, known: seq<string>, name: string)
    ensures (exists spec :: spec in CacheInputs(inputs, known) && spec.input.name == name) <==>
      exists o :: o in inputs && IsCacheInput(o, known) && o.spec.Some? && o.name == name
  {
    hide IsCacheTensorName, InferCachePastAxis;
    if inputs != [] {
      var o, rest := inputs[0], inputs[1..];
      CacheInputsExactly(rest, known, name);
      var first, later := CacheInputOf(o, known), CacheInputs(rest, known);
      assert CacheInputs(inputs, known) == first + later;
      assert forall x :: x in inputs <==> x == o || x in rest;
      assert first != [] ==> first[0] in first && first[0].input.name == o.name;
      assert forall spec | spec in first :: spec == first[0];
    }
  }

  lemma {:induction false} UnresolvedIssuesExactly(specs: seq<CacheTensorSpec>, outputs: seq<string>, issue: Issue)
    ensures issue in CacheOutputIssues(specs, outputs) <==>
      issue.CacheOutputMissing? && ResolveCacheOutputName(issue.name, outputs).None?
      && exists spec :: spec in specs && spec.input.name == issue.name
  {
    hide ResolveCacheOutputName;
    if specs != [] {
      var spec, rest := specs[0], specs[1..];
      UnresolvedIssuesExactly(rest, outputs, issue);
      assert forall x :: x in specs <==> x == spec || x in rest;
    }
  }

  /** A role whose input has a type it cannot be given. */
  predicate IsMistyped(spec: Option<InputSpec>, name: string, types: set<ElementType>) {
    spec.Some? && spec.value.name == name && spec.value.elementType !in types
  }

  lemma RoleIssuesExactly(roles: Roles, issue: Issue)
    ensures issue in RoleIssues(roles) <==>
      && issue.InputDtypeUnsupported?
      && (|| IsMistyped(Some(roles.inputIds), issue.name, {Int64, Int32})
          || IsMistyped(roles.attentionMask, issue.name, {Int64, Int32})
          || IsMistyped(roles.positionIds, issue.name, {Int64, Int32})
          || IsMistyped(roles.tokenTypeIds, issue.name, {Int64, Int32})
          || IsMistyped(roles.cachePosition, issue.name, {Int64, Int32})
          || IsMistyped(roles.useCache, issue.name, {Bool, Int64, Int32}))
  {
    hide IsMistyped, DtypeIssue, IsSequenceType, IsUseCacheType;
    DtypeIssueExactly(Some(roles.inputIds), issue);
    DtypeIssueExactly(roles.attentionMask, issue);
    DtypeIssueExactly(roles.positionIds, issue);
    DtypeIssueExactly(roles.tokenTypeIds, issue);
    DtypeIssueExactly(roles.cachePosition, issue);
    DtypeIssueExactly(roles.useCache, issue);
  }

  lemma DtypeIssueExactly(spec: Option<InputSpec>, issue: Issue)
    ensures issue in DtypeIssue(spec, t => IsSequenceType(t))
      <==> issue.InputDtypeUnsupported? && IsMistyped(spec, issue.name, {Int64, Int32})
    ensures issue in DtypeIssue(spec, t => IsUseCacheType(t))
      <==> issue.InputDtypeUnsupported? && IsMistyped(spec, issue.name, {Bool, Int64, Int32})
  {
  }

  lemma {:induction false} NoScoresExactly(outputs: seq<string>)
    ensures FirstNonCache(outputs).None? <==> forall name | name in outputs :: IsCacheTensorName(name)
  {
    hide IsCacheTensorName;
    if outputs != [] {
      NoScoresExactly(outputs[1..]);
      assert forall x :: x in outputs <==> x == outputs[0] || x in outputs[1..];
    }
  }

  /** Neither conventional name of the scores is that of a cache tensor. */
  lemma ScoresAreNoCache()
    ensures !IsCacheTensorName("logits") && !IsCacheTensorName("lm_logits")
  {
    NoKeyIn("logits");
    NoKeyIn("lm_logits");
  }

  lemma NoKeyIn(name: string)
    requires 'k' !in Lower(name) && 'v' !in Lower(name)
    ensures !IsCacheTensorName(name)
  {
    var lower := Lower(name);
    forall i | 0 <= i <= |lower| ensures !OccursAt(lower, "key", i) && !OccursAt(lower, "value", i) {
      if i < |lower| {
        StartsLike(lower, "key", i);
        StartsLike(lower, "value", i);
      }
    }
  }

  lemma LogitsMissingExactly(outputs: seq<string>)
    ensures LogitsOutputName(outputs).None? <==> forall name | name in outputs :: IsCacheTensorName(name)
  {
    NoScoresExactly(outputs);
    ScoresAreNoCache();
  }

  /** Of a signature whose token input is a tensor. */
  ghost predicate IsReported(signature: Signature, issue: Issue)
    requires SpecOf(InputIdsOutlet(signature.inputs)).Some?
  {
    var inputs := signature.inputs;
    var roles := AssignRoles(inputs, SpecOf(InputIdsOutlet(inputs)).value);
    var known := RoleNames(roles);
    var noScores := forall name | name in signature.outputs :: IsCacheTensorName(name);
    match issue
    case InputIdsMissing => false
    case InputIdsInvalid => false
    case CacheInputInvalid(name) => exists o :: o in inputs && IsCacheInput(o, known) && o.name == name && o.spec.None?
    case CacheDtypeUnsupported(name) =>
      exists o :: o in inputs && IsCacheInput(o, known) && o.name == name && o.spec.Some? && o.spec.value.elementType == OtherType
    case InputUnsupported(names) => names != [] && names == UnsupportedInputs(inputs, known)
    case InputDtypeUnsupported(name) =>
      || IsMistyped(Some(roles.inputIds), name, {Int64, Int32}) || IsMistyped(roles.attentionMask, name, {Int64, Int32})
      || IsMistyped(roles.positionIds, name, {Int64, Int32}) || IsMistyped(roles.tokenTypeIds, name, {Int64, Int32})
      || IsMistyped(roles.cachePosition, name, {Int64, Int32}) || IsMistyped(roles.useCache, name, {Bool, Int64, Int32})
    case LogitsOutputMissing => noScores
    case CacheOutputMissing(name) =>
      && !noScores
      && (|| ((exists o :: o in inputs && IsCacheInput(o, known) && o.spec.Some?)
              && name == "" && forall output | output in signature.outputs :: !IsCacheTensorName(output))
          || ((exists o :: o in inputs && IsCacheInput(o, known) && o.spec.Some? && o.name == name)
              && ResolveCacheOutputName(name, CacheOutputs(signature.outputs)).None?))
  }

  lemma {:induction false} NoCacheOutputsExactly(outputs: seq<string>)
    ensures CacheOutputs(outputs) == [] <==> forall name | name in outputs :: !IsCacheTensorName(name)
  {
    hide IsCacheTensorName;
    if outputs != [] {
      NoCacheOutputsExactly(outputs[1..]);
      assert forall x :: x in outputs <==> x == outputs[0] || x in outputs[1..];
    }
  }

  /** Every reason is reported exactly if it holds. */
  lemma IssuesExactly(signature: Signature, issue: Issue)
    ensures signature.inputs == [] ==> AnalyzeSessionLayout(signature).1 == [InputIdsMissing]
    ensures signature.inputs != [] && SpecOf(InputIdsOutlet(signature.inputs)).None? ==>
      AnalyzeSessionLayout(signature).1 == [InputIdsInvalid]
    ensures SpecOf(InputIdsOutlet(signature.inputs)).Some? ==>
      (issue in AnalyzeSessionLayout(signature).1 <==> IsReported(signature, issue))
  {
    hide IsCacheTensorName, AssignRoles, RoleNames, CacheInputs, CacheInputIssues, UnsupportedInputs, RoleIssues, InputIdsOutlet,
         CacheOutputs, LogitsOutputName, ResolveCacheOutputName, CacheOutputIssues, WithOutputs, IsMistyped, IsCacheInput;
    if SpecOf(InputIdsOutlet(signature.inputs)).Some? {
      var roles := AssignRoles(signature.inputs, SpecOf(InputIdsOutlet(signature.inputs)).value);
      var known := RoleNames(roles);
      var found, outputs := CacheInputs(signature.inputs, known), CacheOutputs(signature.outputs);
      ScanIssuesExactly(signature.inputs, known, issue);
      RoleIssuesExactly(roles, issue);
      LogitsMissingExactly(signature.outputs);
      UnresolvedIssuesExactly(found, outputs, issue);
      NoCacheOutputsExactly(signature.outputs);
      if issue.CacheOutputMissing? {
        CacheInputsExactly(signature.inputs, known, issue.name);
      }
      if found != [] {
        CacheInputsExactly(signature.inputs, known, found[0].input.name);
        assert found[0] in found;
      }
      forall o | o in signature.inputs && IsCacheInput(o, known) && o.spec.Some? ensures found != [] {
        CacheInputsExactly(signature.inputs, known, o.name);
      }
    }
  }
}
