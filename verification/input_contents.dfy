/** What the built input list hands to the runtime (inference_bridge/src/onnx_vitis.rs): the tensor under
    each name, its shape and its values, and that each decode step's mask is as long as its cache. */
module InputContents {
  import opened Wrappers
  import opened TensorShapes
  import opened SessionLayouts
  import opened InputSupply
  import opened KvGeneration
  import opened KvTheorems

  // ---- integer tensors ----

  /** A tensor for `n` values, as the declared input wants it. */
  ghost predicate IsShapedFor(t: Tensor, spec: InputSpec, n: nat) {
    && t.elementType == spec.elementType && FillsIn(t.shape, spec.shape, LastAxis(spec.shape), n)
    && t.content.Ints? && |t.content.ints| == Product(t.shape)
  }

  /** Under the name of the input stand the values, cut off or its last one repeated. */
  ghost predicate Carries(inputs: seq<NamedTensor>, spec: InputSpec, values: seq<int>) {
    var t := Lookup(inputs, spec.name);
    && t.Some? && IsShapedFor(t.value, spec, |values|)
    && forall i :: 0 <= i < |t.value.content.ints| ==>
         t.value.content.ints[i] == if i < |values| then values[i] else if values == [] then 0 else values[|values| - 1]
  }

  /** Under the name of the input stand only `v`s, for a length of `n`. */
  ghost predicate CarriesOnly(inputs: seq<NamedTensor>, spec: InputSpec, n: nat, v: int) {
    var t := Lookup(inputs, spec.name);
    && t.Some? && IsShapedFor(t.value, spec, n) && forall x | x in t.value.content.ints :: x == v
  }

  /** The switch is on exactly on the cache branch. */
  ghost predicate CarriesFlag(inputs: seq<NamedTensor>, spec: InputSpec, on: bool) {
    var t := Lookup(inputs, spec.name);
    && t.Some? && t.value.elementType == spec.elementType && FillsIn(t.value.shape, spec.shape, LastAxis(spec.shape), 1)
    && (t.value.content.Bools? ==> forall x | x in t.value.content.bools :: x == on)
    && (t.value.content.Ints? ==> forall x | x in t.value.content.ints :: x == if on then 1 else 0)
    && !t.value.content.Floats?
    && (spec.elementType.Bool? <==> t.value.content.Bools?)
  }

  /** Of a single token after a cache the position before the mask's end, else positions from 0. */
  ghost predicate ArePositions(values: seq<int>, layout: SessionLayout, n: nat, attentionLen: nat) {
    && |values| == n
    && if layout.cacheSpecs != [] && n == 1 then values[0] == (if attentionLen == 0 then 0 else attentionLen - 1)
       else forall i :: 0 <= i < n ==> values[i] == i
  }

  ghost predicate CarriesPositions(inputs: seq<NamedTensor>, spec: Option<InputSpec>, layout: SessionLayout, n: nat,
                                   attentionLen: nat) {
    spec.Some? ==> exists values :: ArePositions(values, layout, n, attentionLen) && Carries(inputs, spec.value, values)
  }

  /** What a forward pass over `ids` is handed. */
  ghost predicate IsHanded(layout: SessionLayout, p: Pass, inputs: seq<NamedTensor>) {
    && Carries(inputs, layout.inputIds, p.ids)
    && (layout.attentionMask.Some? ==> CarriesOnly(inputs, layout.attentionMask.value, Max1(p.attentionLen), 1))
    && CarriesPositions(inputs, layout.positionIds, layout, |p.ids|, p.attentionLen)
    && (layout.tokenTypeIds.Some? ==> CarriesOnly(inputs, layout.tokenTypeIds.value, Max1(|p.ids|), 0))
    && CarriesPositions(inputs, layout.cachePosition, layout, |p.ids|, p.attentionLen)
    && (layout.useCache.Some? ==> CarriesFlag(inputs, layout.useCache.value, p.branch))
    && forall spec | spec in layout.cacheSpecs ::
         if (p.branch || layout.useCache.None?) && p.state != map[]
         then spec.input.name in p.state && Lookup(inputs, spec.input.name) == Some(p.state[spec.input.name])
         else Lookup(inputs, spec.input.name) == None
  }

  // ---- single inputs ----

  lemma IntInputCarries(spec: InputSpec, values: seq<int>)
    requires IntInput(spec, values).Success?
    ensures |IntInput(spec, values).value| == 1 && IntInput(spec, values).value[0].0 == spec.name
    ensures Carries(IntInput(spec, values).value, spec, values)
  {
    hide Product, FillsIn;
    NumElementsExact(FilledIn(spec.shape, LastAxis(spec.shape), |values|));
    assert Lookup(IntInput(spec, values).value, spec.name).Some?;
  }

  lemma FlagCarries(spec: InputSpec, on: bool)
    requires UseCacheInput(Some(spec), on).Success?
    ensures CarriesFlag(UseCacheInput(Some(spec), on).value, spec, on)
  {
    hide FillsIn;
  }

  // ---- the list ----

  lemma {:induction false} FoundByName(inputs: seq<NamedTensor>, i: nat)
    requires i < |inputs| && Distinct(Names(inputs))
    ensures Lookup(inputs, inputs[i].0) == Some(inputs[i].1)
  {
    if i > 0 {
      assert Names(inputs)[0] != Names(inputs)[i];
      assert forall j :: 0 <= j < |inputs| - 1 ==> Names(inputs[1..])[j] == Names(inputs)[j + 1];
      FoundByName(inputs[1..], i - 1);
    }
  }

  lemma {:induction false} NotFound(inputs: seq<NamedTensor>, name: string)
    requires name !in Names(inputs)
    ensures Lookup(inputs, name) == None
  {
    if inputs != [] {
      assert Names(inputs)[0] == inputs[0].0;
      assert forall j :: 0 <= j < |inputs| - 1 ==> Names(inputs[1..])[j] == Names(inputs)[j + 1];
      NotFound(inputs[1..], name);
    }
  }

  /** A part of one input is found as in the part. */
  lemma FoundAsInPart(part: seq<NamedTensor>, inputs: seq<NamedTensor>, name: string)
    requires Distinct(Names(inputs)) && |part| == 1 && part[0].0 == name && part[0] in inputs
    ensures Lookup(inputs, name) == Lookup(part, name)
  {
    var i :| 0 <= i < |inputs| && inputs[i] == part[0];
    FoundByName(inputs, i);
  }

  lemma {:induction false} CacheTensorsListed(specs: seq<CacheTensorSpec>, state: CacheState)
    requires CacheTensorInputs(specs, state).Success?
    ensures forall spec | spec in specs ::
      spec.input.name in state && (spec.input.name, state[spec.input.name]) in CacheTensorInputs(specs, state).value
  {
    if specs != [] {
      CacheTensorsListed(specs[1..], state);
    }
  }

  /** The inputs of a part are among those of the list. */
  ghost predicate Within(part: Result<seq<NamedTensor>, ModelError>, inputs: seq<NamedTensor>) {
    part.Success? && forall x | x in part.value :: x in inputs
  }

  lemma AppendedWithin(first: Result<seq<NamedTensor>, ModelError>, second: Result<seq<NamedTensor>, ModelError>,
                       inputs: seq<NamedTensor>)
    requires Within(Append(first, second), inputs)
    ensures Within(first, inputs) && Within(second, inputs)
  {
  }

  lemma PartsWithin(layout: SessionLayout, p: Pass, inputs: seq<NamedTensor>)
    requires BuildModelInputs(layout, p.ids, p.attentionLen, p.branch, p.state) == Success(inputs)
    ensures var positions := PositionValues(layout, |p.ids|, p.attentionLen);
      && Within(IntInput(layout.inputIds, p.ids), inputs)
      && Within(OptionalIntInput(layout.attentionMask, seq(Max1(p.attentionLen), _ => 1)), inputs)
      && Within(OptionalIntInput(layout.positionIds, positions), inputs)
      && Within(OptionalIntInput(layout.tokenTypeIds, seq(Max1(|p.ids|), _ => 0)), inputs)
      && Within(OptionalIntInput(layout.cachePosition, positions), inputs)
      && Within(UseCacheInput(layout.useCache, p.branch), inputs)
      && (IncludesCache(layout, p.branch, p.state) ==> Within(CacheTensorInputs(layout.cacheSpecs, p.state), inputs))
  {
    hide IntInput, OptionalIntInput, UseCacheInput, CacheTensorInputs, PositionValues, Max1;
    var positions := PositionValues(layout, |p.ids|, p.attentionLen);
    var i0 := IntInput(layout.inputIds, p.ids);
    var i1 := OptionalIntInput(layout.attentionMask, seq(Max1(p.attentionLen), _ => 1));
    var i2 := OptionalIntInput(layout.positionIds, positions);
    var i3 := OptionalIntInput(layout.tokenTypeIds, seq(Max1(|p.ids|), _ => 0));
    var i4 := OptionalIntInput(layout.cachePosition, positions);
    var i5 := UseCacheInput(layout.useCache, p.branch);
    var i6 := if IncludesCache(layout, p.branch, p.state) then CacheTensorInputs(layout.cacheSpecs, p.state) else Success([]);
    var r1 := Append(i0, i1);
    var r2 := Append(r1, i2);
    var r3 := Append(r2, i3);
    var r4 := Append(r3, i4);
    var r5 := Append(r4, i5);
    assert Append(r5, i6) == Success(inputs);
    hide Append;
    AppendedWithin(r5, i6, inputs);
    AppendedWithin(r4, i5, inputs);
    AppendedWithin(r3, i4, inputs);
    AppendedWithin(r2, i3, inputs);
    AppendedWithin(r1, i2, inputs);
    AppendedWithin(i0, i1, inputs);
  }

  lemma IntsCarry(spec: InputSpec, values: seq<int>, inputs: seq<NamedTensor>)
    requires Distinct(Names(inputs)) && Within(IntInput(spec, values), inputs)
    ensures Carries(inputs, spec, values)
    ensures forall v, n: nat | n > 0 && values == seq(n, _ => v) :: CarriesOnly(inputs, spec, n, v)
  {
    hide IntInput, IsShapedFor, Distinct;
    IntInputCarries(spec, values);
    FoundAsInPart(IntInput(spec, values).value, inputs, spec.name);
  }

  lemma PositionsCarry(spec: Option<InputSpec>, layout: SessionLayout, n: nat, attentionLen: nat, inputs: seq<NamedTensor>)
    requires Distinct(Names(inputs)) && Within(OptionalIntInput(spec, PositionValues(layout, n, attentionLen)), inputs)
    ensures CarriesPositions(inputs, spec, layout, n, attentionLen)
  {
    hide IntInput, Carries, Distinct, CarriesOnly;
    var values := PositionValues(layout, n, attentionLen);
    assert ArePositions(values, layout, n, attentionLen);
    if spec.Some? {
      IntsCarry(spec.value, values, inputs);
    }
  }

  lemma DistinctNames(layout: SessionLayout, p: Pass, inputs: seq<NamedTensor>)
    requires BuildModelInputs(layout, p.ids, p.attentionLen, p.branch, p.state) == Success(inputs)
    requires Distinct(Supplied(layout))
    ensures Distinct(Names(inputs))
    ensures !IncludesCache(layout, p.branch, p.state) ==>
      forall spec | spec in layout.cacheSpecs :: spec.input.name !in Names(inputs)
  {
    hide BuildModelInputs, RoleNames;
    BuiltNames(layout, p.ids, p.attentionLen, p.branch, p.state);
    var all, roles := Supplied(layout), RoleNames(RolesOf(layout));
    assert forall i :: 0 <= i < |Names(inputs)| ==> Names(inputs)[i] == all[i];
    if !IncludesCache(layout, p.branch, p.state) {
      forall spec | spec in layout.cacheSpecs ensures spec.input.name !in Names(inputs) {
        var j :| 0 <= j < |layout.cacheSpecs| && layout.cacheSpecs[j] == spec;
        assert all[|roles| + j] == spec.input.name;
      }
    }
  }

  /** Whatever is built: under each name of the layout the runtime finds what the pass wants to say, in the
      declared type and shape. */
  lemma InputsAreHanded(layout: SessionLayout, p: Pass, inputs: seq<NamedTensor>)
    requires BuildModelInputs(layout, p.ids, p.attentionLen, p.branch, p.state) == Success(inputs)
    requires Distinct(Supplied(layout))
    ensures IsHanded(layout, p, inputs)
  {
    hide BuildModelInputs, Distinct, Supplied, Carries, CarriesOnly, CarriesFlag, CarriesPositions, IntInput, Within;
    PartsWithin(layout, p, inputs);
    DistinctNames(layout, p, inputs);
    IntsCarry(layout.inputIds, p.ids, inputs);
    PositionsCarry(layout.positionIds, layout, |p.ids|, p.attentionLen, inputs);
    PositionsCarry(layout.cachePosition, layout, |p.ids|, p.attentionLen, inputs);
    if layout.attentionMask.Some? {
      IntsCarry(layout.attentionMask.value, seq(Max1(p.attentionLen), _ => 1), inputs);
    }
    if layout.tokenTypeIds.Some? {
      IntsCarry(layout.tokenTypeIds.value, seq(Max1(|p.ids|), _ => 0), inputs);
    }
    if layout.useCache.Some? {
      FlagIsHanded(layout.useCache.value, p.branch, inputs);
    }
    CacheIsHanded(layout, p, inputs);
  }

  lemma FlagIsHanded(spec: InputSpec, on: bool, inputs: seq<NamedTensor>)
    requires Distinct(Names(inputs)) && Within(UseCacheInput(Some(spec), on), inputs)
    ensures CarriesFlag(inputs, spec, on)
  {
    hide Distinct, FillsIn, BuildUseCacheTensor;
    FlagCarries(spec, on);
    FoundAsInPart(UseCacheInput(Some(spec), on).value, inputs, spec.name);
  }

  lemma CacheIsHanded(layout: SessionLayout, p: Pass, inputs: seq<NamedTensor>)
    requires Distinct(Names(inputs))
    requires if IncludesCache(layout, p.branch, p.state) then Within(CacheTensorInputs(layout.cacheSpecs, p.state), inputs)
             else forall spec | spec in layout.cacheSpecs :: spec.input.name !in Names(inputs)
    ensures forall spec | spec in layout.cacheSpecs ::
      if IncludesCache(layout, p.branch, p.state)
      then spec.input.name in p.state && Lookup(inputs, spec.input.name) == Some(p.state[spec.input.name])
      else Lookup(inputs, spec.input.name) == None
  {
    hide Distinct;
    if IncludesCache(layout, p.branch, p.state) {
      CacheTensorsListed(layout.cacheSpecs, p.state);
    }
    forall spec | spec in layout.cacheSpecs
      ensures if IncludesCache(layout, p.branch, p.state)
              then spec.input.name in p.state && Lookup(inputs, spec.input.name) == Some(p.state[spec.input.name])
              else Lookup(inputs, spec.input.name) == None
    {
      if IncludesCache(layout, p.branch, p.state) {
        var i :| 0 <= i < |inputs| && inputs[i] == (spec.input.name, p.state[spec.input.name]);
        FoundByName(inputs, i);
      } else {
        NotFound(inputs, spec.input.name);
      }
    }
  }

  /** For a batch of one of open length nothing is cut off or repeated: a mask is just that many ones. */
  lemma PlainMaskIsExact(inputs: seq<NamedTensor>, spec: InputSpec, n: nat, v: int)
    requires CarriesOnly(inputs, spec, n, v) && IsBatchOneDynamic(spec.shape) && n >= 1
    ensures Lookup(inputs, spec.name).value.content == Ints(seq(n, _ => v))
    ensures var shape := Lookup(inputs, spec.name).value.shape; shape != [] && shape[|shape| - 1] == n
  {
    NoPaddingExactly(spec.shape);
    var t := Lookup(inputs, spec.name).value;
    assert t.shape == FilledIn(spec.shape, LastAxis(spec.shape), n);
    assert |t.content.ints| == n;
    forall i | 0 <= i < n ensures t.content.ints[i] == seq(n, _ => v)[i] {
      assert t.content.ints[i] in t.content.ints;
    }
    assert t.content.ints == seq(n, _ => v);
  }

  // ---- masks and caches in one list ----

  /** The mask holds ones only, as many to a row as every cache tensor beside it has past entries. */
  ghost predicate MaskFitsCache(layout: SessionLayout, inputs: seq<NamedTensor>)
    requires layout.attentionMask.Some?
  {
    var mask := Lookup(inputs, layout.attentionMask.value.name);
    && mask.Some? && mask.value.content.Ints? && mask.value.shape != []
    && (forall x | x in mask.value.content.ints :: x == 1)
    && forall spec | spec in layout.cacheSpecs ::
         var past := Lookup(inputs, spec.input.name);
         past.Some? && spec.pastAxis < |past.value.shape|
         && past.value.shape[spec.pastAxis] == mask.value.shape[|mask.value.shape| - 1]
  }

  lemma PassMaskFits(layout: SessionLayout, p: Pass, inputs: seq<NamedTensor>)
    requires BuildModelInputs(layout, p.ids, p.attentionLen, p.branch, p.state) == Success(inputs)
    requires layout.attentionMask.Some? && LastIsOpen(layout.attentionMask.value.shape) && Distinct(Supplied(layout))
    requires MaskIsPast(layout, p)
    ensures MaskFitsCache(layout, inputs)
  {
    hide BuildModelInputs, Distinct, Supplied, Carries, CarriesFlag, CarriesPositions;
    InputsAreHanded(layout, p, inputs);
  }

  predicate LastIsOpen(template: seq<int>) {
    template == [] || template[|template| - 1] <= 0
  }

  /** In every decode pass of a cached run whose inputs can be built, the mask handed over holds ones only,
      in rows exactly as long as the past of every cache tensor handed over with it. */
  lemma MaskTensorsMatchCache(m: Model, cfg: Config, chance: Chance, prompt: string, i: nat, inputs: seq<NamedTensor>)
    requires m.sharedBuffer.None? && CacheEnabled(m, cfg) && UniformSpecs(m.layout, cfg.allowZeroDims) && GrowsPast(m)
    requires forall state: CacheState | state != map[] :: chance.first(state) in state
    requires m.layout.attentionMask.Some? && LastIsOpen(m.layout.attentionMask.value.shape) && Distinct(Supplied(m.layout))
    requires 1 <= i < |Generate(m, cfg, chance, prompt).passes|
    requires var p := Generate(m, cfg, chance, prompt).passes[i];
             BuildModelInputs(m.layout, p.ids, p.attentionLen, p.branch, p.state) == Success(inputs)
    ensures MaskFitsCache(m.layout, inputs)
  {
    hide Generate, BuildModelInputs, UniformSpecs, GrowsPast, Distinct, Supplied, MaskIsPast, MaskFitsCache;
    MasksMatchCache(m, cfg, chance, prompt);
    PassMaskFits(m.layout, Generate(m, cfg, chance, prompt).passes[i], inputs);
  }

  // ---- the first cache ----

  ghost predicate IsBlankContent(content: Content) {
    match content
    case Ints(ints) => forall x | x in ints :: x == 0
    case Bools(bools) => forall x | x in bools :: !x
    case Floats(floats) => forall x | x in floats :: x == 0.0
  }

  /** All zeros, in the declared type, with the past length asked for, or one entry if it may not be empty. */
  ghost predicate IsFirstTensor(t: Tensor, spec: CacheTensorSpec, pastLen: nat, allowZero: bool) {
    && t.elementType == spec.input.elementType && IsBlankContent(t.content)
    && FillsIn(t.shape, spec.input.shape, spec.pastAxis, if pastLen == 0 && !allowZero then 1 else pastLen)
  }

  /** A cache starts with such a tensor for each cache input, and with no other. */
  lemma FirstCacheIsBlank(layout: SessionLayout, pastLen: nat, allowZero: bool, name: string)
    requires InitializeCacheState(layout, pastLen, allowZero).Success?
    ensures var state := InitializeCacheState(layout, pastLen, allowZero).value;
      if name in state
      then exists spec | spec in layout.cacheSpecs :: spec.input.name == name && IsFirstTensor(state[name], spec, pastLen, allowZero)
      else forall spec | spec in layout.cacheSpecs :: spec.input.name != name
  {
    hide InitialTensor, IsFirstTensor;
    var state := InitializeCacheState(layout, pastLen, allowZero).value;
    if name in state {
      var spec :| spec in layout.cacheSpecs && spec.input.name == name
                  && InitialTensor(spec, pastLen, allowZero) == Success(state[name]);
      InitialIsFirst(spec, pastLen, allowZero);
    }
  }

  lemma InitialIsFirst(spec: CacheTensorSpec, pastLen: nat, allowZero: bool)
    requires InitialTensor(spec, pastLen, allowZero).Success?
    ensures IsFirstTensor(InitialTensor(spec, pastLen, allowZero).value, spec, pastLen, allowZero)
  {
    hide FillsIn;
  }
}
