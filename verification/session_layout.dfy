/** From a model's signature to the inputs of a forward pass (inference_bridge/src/onnx_vitis.rs):
    the role of every declared input, the first cache tensors, and the list handed to the runtime. */
module SessionLayouts {
  import opened Wrappers
  import opened Text
  import opened CacheNames
  import opened TensorShapes

  datatype ElementType = Float32 | Float16 | Int64 | Int32 | Bool | OtherType

  datatype TensorSpec = TensorSpec(elementType: ElementType, shape: seq<int>)

  /** A declared input; `spec` is absent when it is not a tensor. */
  datatype Outlet = Outlet(name: string, spec: Option<TensorSpec>)

  datatype Signature = Signature(inputs: seq<Outlet>, outputs: seq<string>)

  datatype InputSpec = InputSpec(name: string, elementType: ElementType, shape: seq<int>)

  datatype CacheTensorSpec = CacheTensorSpec(input: InputSpec, outputName: string, pastAxis: nat)

  datatype SessionLayout = SessionLayout(
    inputIds: InputSpec, attentionMask: Option<InputSpec>, positionIds: Option<InputSpec>,
    tokenTypeIds: Option<InputSpec>, cachePosition: Option<InputSpec>, useCache: Option<InputSpec>,
    logitsOutputName: string, cacheSpecs: seq<CacheTensorSpec>)

  /** The reason codes of the compatibility report; each is a failure. */
  datatype Issue =
    | InputIdsMissing | InputIdsInvalid
    | CacheDtypeUnsupported(name: string) | CacheInputInvalid(name: string)
    | InputUnsupported(names: seq<string>) | InputDtypeUnsupported(name: string)
    | LogitsOutputMissing | CacheOutputMissing(name: string)

  // ---- roles ----

  predicate IsCachePositionInputName(name: string) {
    Lower(name) == "cache_position"
  }

  predicate IsUseCacheInputName(name: string) {
    Lower(name) == "use_cache" || Lower(name) == "use_cache_branch"
  }

  predicate IsSequenceType(t: ElementType) {
    t.Int64? || t.Int32?
  }

  predicate IsUseCacheType(t: ElementType) {
    t.Bool? || t.Int64? || t.Int32?
  }

  predicate IsCacheType(t: ElementType) {
    !t.OtherType?
  }

  function InferCachePastAxis(shape: seq<int>): nat {
    if |shape| >= 2 then |shape| - 2 else 0
  }

  /** The first outlet that satisfies the test. */
  function FindOutlet(inputs: seq<Outlet>, test: string -> bool): (r: Option<Outlet>)
    ensures r.Some? ==> r.value in inputs && test(r.value.name)
    ensures r.None? ==> forall o | o in inputs :: !test(o.name)
  {
    if inputs == [] then None
    else if test(inputs[0].name) then Some(inputs[0])
    else FindOutlet(inputs[1..], test)
  }

  function SpecOf(outlet: Option<Outlet>): Option<InputSpec> {
    if outlet.Some? && outlet.value.spec.Some?
    then Some(InputSpec(outlet.value.name, outlet.value.spec.value.elementType, outlet.value.spec.value.shape))
    else None
  }

  function Role(inputs: seq<Outlet>, test: string -> bool): (r: Option<InputSpec>)
    ensures r.Some? ==> test(r.value.name)
                        && Outlet(r.value.name, Some(TensorSpec(r.value.elementType, r.value.shape))) in inputs
  {
    SpecOf(FindOutlet(inputs, test))
  }

  /** `input_ids`, else `tokens`, else whatever input comes first. */
  function InputIdsOutlet(inputs: seq<Outlet>): (r: Option<Outlet>)
    ensures r.Some? ==> r.value in inputs
    ensures r.None? <==> inputs == []
  {
    var byName := FindOutlet(inputs, name => name == "input_ids");
    var byTokens := FindOutlet(inputs, name => name == "tokens");
    if byName.Some? then byName
    else if byTokens.Some? then byTokens
    else if inputs == [] then None
    else Some(inputs[0])
  }

  /** The six inputs with a role of their own, in the order they are supplied. */
  datatype Roles = Roles(
    inputIds: InputSpec, attentionMask: Option<InputSpec>, positionIds: Option<InputSpec>,
    tokenTypeIds: Option<InputSpec>, cachePosition: Option<InputSpec>, useCache: Option<InputSpec>)

  function AssignRoles(inputs: seq<Outlet>, inputIds: InputSpec): Roles {
    Roles(inputIds,
          Role(inputs, name => name == "attention_mask"),
          Role(inputs, name => name == "position_ids"),
          Role(inputs, name => name == "token_type_ids"),
          Role(inputs, name => IsCachePositionInputName(name)),
          Role(inputs, name => IsUseCacheInputName(name)))
  }

  function NameOf(spec: Option<InputSpec>): seq<string> {
    if spec.Some? then [spec.value.name] else []
  }

  /** The names of the optional roles. */
  function OtherNames(r: Roles): seq<string> {
    NameOf(r.attentionMask) + NameOf(r.positionIds) + NameOf(r.tokenTypeIds)
    + NameOf(r.cachePosition) + NameOf(r.useCache)
  }

  function RoleNames(r: Roles): seq<string> {
    [r.inputIds.name] + OtherNames(r)
  }

  // ---- the analysis ----

  function CacheInputOf(o: Outlet, known: seq<string>): seq<CacheTensorSpec> {
    if o.name !in known && IsCacheTensorName(o.name) && o.spec.Some?
    then [CacheTensorSpec(SpecOf(Some(o)).value, "", InferCachePastAxis(o.spec.value.shape))]
    else []
  }

  function CacheInputs(inputs: seq<Outlet>, known: seq<string>): seq<CacheTensorSpec> {
    if inputs == [] then [] else CacheInputOf(inputs[0], known) + CacheInputs(inputs[1..], known)
  }

  function CacheInputIssueOf(o: Outlet, known: seq<string>): seq<Issue> {
    if o.name in known || !IsCacheTensorName(o.name) then []
    else if o.spec.None? then [CacheInputInvalid(o.name)]
    else if !IsCacheType(o.spec.value.elementType) then [CacheDtypeUnsupported(o.name)]
    else []
  }

  function CacheInputIssues(inputs: seq<Outlet>, known: seq<string>): seq<Issue> {
    if inputs == [] then [] else CacheInputIssueOf(inputs[0], known) + CacheInputIssues(inputs[1..], known)
  }

  function UnsupportedInputs(inputs: seq<Outlet>, known: seq<string>): (r: seq<string>)
    ensures r == [] <==> forall o | o in inputs :: o.name in known || IsCacheTensorName(o.name)
  {
    if inputs == [] then []
    else
      (if inputs[0].name in known || IsCacheTensorName(inputs[0].name) then [] else [inputs[0].name])
      + UnsupportedInputs(inputs[1..], known)
  }

  function DtypeIssue(spec: Option<InputSpec>, supported: ElementType -> bool): seq<Issue> {
    if spec.Some? && !supported(spec.value.elementType) then [InputDtypeUnsupported(spec.value.name)] else []
  }

  function RoleIssues(roles: Roles): seq<Issue> {
    DtypeIssue(Some(roles.inputIds), t => IsSequenceType(t))
    + DtypeIssue(roles.attentionMask, t => IsSequenceType(t))
    + DtypeIssue(roles.positionIds, t => IsSequenceType(t))
    + DtypeIssue(roles.tokenTypeIds, t => IsSequenceType(t))
    + DtypeIssue(roles.cachePosition, t => IsSequenceType(t))
    + DtypeIssue(roles.useCache, t => IsUseCacheType(t))
  }

  function FirstNonCache(outputs: seq<string>): Option<string> {
    if outputs == [] then None
    else if !IsCacheTensorName(outputs[0]) then Some(outputs[0])
    else FirstNonCache(outputs[1..])
  }

  function LogitsOutputName(outputs: seq<string>): Option<string> {
    if "logits" in outputs then Some("logits")
    else if "lm_logits" in outputs then Some("lm_logits")
    else FirstNonCache(outputs)
  }

  function CacheOutputs(outputs: seq<string>): seq<string> {
    if outputs == [] then []
    else (if IsCacheTensorName(outputs[0]) then [outputs[0]] else []) + CacheOutputs(outputs[1..])
  }

  /** Fills in the output names that can be found. */
  function WithOutputs(specs: seq<CacheTensorSpec>, outputs: seq<string>): (r: seq<CacheTensorSpec>)
    ensures |r| == |specs|
    ensures forall i :: 0 <= i < |specs| ==> r[i].input == specs[i].input && r[i].pastAxis == specs[i].pastAxis
  {
    if specs == [] then []
    else
      var found := ResolveCacheOutputName(specs[0].input.name, outputs);
      [if found.Some? then specs[0].(outputName := found.value) else specs[0]]
      + WithOutputs(specs[1..], outputs)
  }

  function CacheOutputIssues(specs: seq<CacheTensorSpec>, outputs: seq<string>): (r: seq<Issue>)
    ensures r == [] <==> forall spec | spec in specs :: ResolveCacheOutputName(spec.input.name, outputs).Some?
  {
    if specs == [] then []
    else
      (if ResolveCacheOutputName(specs[0].input.name, outputs).None? then [CacheOutputMissing(specs[0].input.name)] else [])
      + CacheOutputIssues(specs[1..], outputs)
  }

  function AnalyzeSessionLayout(signature: Signature): (Option<SessionLayout>, seq<Issue>) {
    var inputs := signature.inputs;
    var idsOutlet := InputIdsOutlet(inputs);
    if idsOutlet.None? then (None, [InputIdsMissing])
    else if SpecOf(idsOutlet).None? then (None, [InputIdsInvalid])
    else
      var roles := AssignRoles(inputs, SpecOf(idsOutlet).value);
      var known := RoleNames(roles);
      var found := CacheInputs(inputs, known);
      var unsupported := UnsupportedInputs(inputs, known);
      var issues :=
        CacheInputIssues(inputs, known)
        + (if unsupported != [] then [InputUnsupported(unsupported)] else [])
        + RoleIssues(roles);
      var logits := LogitsOutputName(signature.outputs);
      if logits.None? then (None, issues + [LogitsOutputMissing])
      else
        var cacheOutputs := CacheOutputs(signature.outputs);
        var cacheIssues :=
          if found == [] then []
          else (if cacheOutputs == [] then [CacheOutputMissing("")] else []) + CacheOutputIssues(found, cacheOutputs);
        var layout := SessionLayout(
          roles.inputIds, roles.attentionMask, roles.positionIds, roles.tokenTypeIds,
          roles.cachePosition, roles.useCache, logits.value, WithOutputs(found, cacheOutputs));
        if issues + cacheIssues != [] then (None, issues + cacheIssues) else (Some(layout), [])
  }

  // ---- tensors ----

  datatype Content = Ints(ints: seq<int>) | Bools(bools: seq<bool>) | Floats(floats: seq<real>)

  datatype Tensor = Tensor(shape: seq<int>, elementType: ElementType, content: Content)

  datatype ModelError =
    | BadShape(shapeError: ShapeError) | OutOfInt32Range | UnsupportedType
    | CacheStateMissing(name: string)
    | RuntimeFailed | NoOutputs | SamplingFailed | CacheOutputAbsent(name: string)
    | EncodingFailed | EmptyPrompt | DecodingFailed | SharedBufferFailed

  predicate FitsInt32(values: seq<int>) {
    forall i :: 0 <= i < |values| ==> -0x8000_0000 <= values[i] < 0x8000_0000
  }

  function BuildIntTensor(shape: seq<int>, values: seq<int>, t: ElementType): Result<Tensor, ModelError> {
    var count := CheckedProduct(shape, 1);
    if count.Failure? then Failure(BadShape(count.error))
    else
      var fitted := FitIntValues(values, count.value);
      match t
      case Int64 => Success(Tensor(shape, t, Ints(fitted)))
      case Int32 => if FitsInt32(fitted) then Success(Tensor(shape, t, Ints(fitted))) else Failure(OutOfInt32Range)
      case _ => Failure(UnsupportedType)
  }

  function BuildUseCacheTensor(spec: InputSpec, enabled: bool): Result<Tensor, ModelError> {
    var shape := FilledIn(spec.shape, LastAxis(spec.shape), 1);
    var count := CheckedProduct(shape, 1);
    if count.Failure? then Failure(BadShape(count.error))
    else
      match spec.elementType
      case Bool => Success(Tensor(shape, Bool, Bools(seq(count.value, _ => enabled))))
      case Int64 | Int32 => BuildIntTensor(shape, [if enabled then 1 else 0], spec.elementType)
      case _ => Failure(UnsupportedType)
  }

  function BuildZeroTensor(shape: seq<int>, t: ElementType): Result<Tensor, ModelError> {
    var count := CheckedProduct(shape, 1);
    if count.Failure? then Failure(BadShape(count.error))
    else
      match t
      case Float32 | Float16 => Success(Tensor(shape, t, Floats(seq(count.value, _ => 0.0))))
      case Int64 | Int32 => BuildIntTensor(shape, [0], t)
      case Bool => Success(Tensor(shape, t, Bools(seq(count.value, _ => false))))
      case OtherType => Failure(UnsupportedType)
  }

  type CacheState = map<string, Tensor>

  function InitialTensor(spec: CacheTensorSpec, pastLen: nat, allowZero: bool): Result<Tensor, ModelError> {
    BuildZeroTensor(FilledIn(spec.input.shape, spec.pastAxis, EffectivePastLen(pastLen, allowZero)), spec.input.elementType)
  }

  function InitializeFrom(specs: seq<CacheTensorSpec>, pastLen: nat, allowZero: bool, state: CacheState)
    : (r: Result<CacheState, ModelError>)
    ensures r.Success? ==> r.value.Keys == state.Keys + set spec | spec in specs :: spec.input.name
    ensures r.Success? ==> forall name | name in r.value ::
      (name in state && r.value[name] == state[name])
      || exists spec :: spec in specs && spec.input.name == name && InitialTensor(spec, pastLen, allowZero) == Success(r.value[name])
  {
    if specs == [] then Success(state)
    else
      var t := InitialTensor(specs[0], pastLen, allowZero);
      if t.Failure? then Failure(t.error)
      else InitializeFrom(specs[1..], pastLen, allowZero, state[specs[0].input.name := t.value])
  }

  function InitializeCacheState(layout: SessionLayout, pastLen: nat, allowZero: bool): Result<CacheState, ModelError> {
    InitializeFrom(layout.cacheSpecs, pastLen, allowZero, map[])
  }

  type NamedTensor = (string, Tensor)

  /** One of the integer inputs, shaped for as many values as it is given. */
  function IntInput(spec: InputSpec, values: seq<int>): Result<seq<NamedTensor>, ModelError> {
    var t := BuildIntTensor(FilledIn(spec.shape, LastAxis(spec.shape), |values|), values, spec.elementType);
    if t.Failure? then Failure(t.error) else Success([(spec.name, t.value)])
  }

  function OptionalIntInput(spec: Option<InputSpec>, values: seq<int>): Result<seq<NamedTensor>, ModelError> {
    if spec.None? then Success([]) else IntInput(spec.value, values)
  }

  function UseCacheInput(spec: Option<InputSpec>, enabled: bool): Result<seq<NamedTensor>, ModelError> {
    if spec.None? then Success([])
    else
      var t := BuildUseCacheTensor(spec.value, enabled);
      if t.Failure? then Failure(t.error) else Success([(spec.value.name, t.value)])
  }

  function CacheTensorInputs(specs: seq<CacheTensorSpec>, state: CacheState): Result<seq<NamedTensor>, ModelError> {
    if specs == [] then Success([])
    else if specs[0].input.name !in state then Failure(CacheStateMissing(specs[0].input.name))
    else Append(Success([(specs[0].input.name, state[specs[0].input.name])]), CacheTensorInputs(specs[1..], state))
  }

  /** Pushes the inputs of `second` after those of `first`; the first error wins. */
  function Append(first: Result<seq<NamedTensor>, ModelError>, second: Result<seq<NamedTensor>, ModelError>)
    : Result<seq<NamedTensor>, ModelError>
  {
    if first.Failure? then first
    else if second.Failure? then second
    else Success(first.value + second.value)
  }

  function Max1(n: nat): nat {
    if n == 0 then 1 else n
  }

  function Ascending(n: nat): seq<int> {
    seq(n, i => i)
  }

  /** Positions restart at 0 unless a single token continues a cache. */
  function PositionValues(layout: SessionLayout, step: nat, attentionLen: nat): seq<int> {
    if layout.cacheSpecs != [] && step == 1 then [if attentionLen == 0 then 0 else attentionLen - 1]
    else Ascending(step)
  }

  predicate IncludesCache(layout: SessionLayout, useCacheBranch: bool, state: CacheState) {
    (useCacheBranch || layout.useCache.None?) && state != map[]
  }

  function BuildModelInputs(layout: SessionLayout, stepInputIds: seq<int>, attentionLen: nat,
                            useCacheBranch: bool, state: CacheState): Result<seq<NamedTensor>, ModelError>
  {
    var positions := PositionValues(layout, |stepInputIds|, attentionLen);
    Append(Append(Append(Append(Append(Append(
      IntInput(layout.inputIds, stepInputIds),
      OptionalIntInput(layout.attentionMask, seq(Max1(attentionLen), _ => 1))),
      OptionalIntInput(layout.positionIds, positions)),
      OptionalIntInput(layout.tokenTypeIds, seq(Max1(|stepInputIds|), _ => 0))),
      OptionalIntInput(layout.cachePosition, positions)),
      UseCacheInput(layout.useCache, useCacheBranch)),
      if IncludesCache(layout, useCacheBranch, state) then CacheTensorInputs(layout.cacheSpecs, state) else Success([]))
  }
}
