/** What decoding with a kept cache guarantees: the same tokens as a fresh session, masks that match
    the cache, and bounds on the output. */
module KvTheorems {
  import opened Wrappers
  import opened Text
  import opened TensorShapes
  import opened SessionLayouts
  import opened KvGeneration

  // ---- length and stop tokens ----

  ghost predicate StopsRight(m: Model, cfg: Config, generated: seq<int>) {
    && 1 <= |generated| <= Max1(cfg.maxNewTokens)
    && (forall i :: 0 <= i < |generated| - 1 ==> generated[i] !in m.stopIds)
    && (|generated| < Max1(cfg.maxNewTokens) ==> generated[|generated| - 1] in m.stopIds)
  }

  lemma {:induction false} DecodeStopsRight(m: Model, cfg: Config, chance: Chance, context: seq<int>, generated: seq<int>,
                                            state: CacheState, initialLen: nat, passes: seq<Pass>)
    requires context != [] && |generated| <= Max1(cfg.maxNewTokens)
    requires forall i :: 0 <= i < |generated| ==> generated[i] !in m.stopIds
    ensures var run := DecodeFrom(m, cfg, chance, context, generated, state, initialLen, passes);
            run.result.Success? ==> generated <= run.result.value && StopsRight(m, cfg, run.result.value)
    decreases Max1(cfg.maxNewTokens) - |generated|
  {
    if |generated| < Max1(cfg.maxNewTokens) {
      var d := DecodeStep(m, DecodePass(context, state, initialLen, CacheEnabled(m, cfg)), chance, |generated|, CacheEnabled(m, cfg));
      if d.Success? && d.value.token !in m.stopIds {
        DecodeStopsRight(m, cfg, chance, context + [d.value.token], generated + [d.value.token], d.value.state, initialLen,
                         passes + [DecodePass(context, state, initialLen, CacheEnabled(m, cfg))]);
      }
    }
  }

  /** Between one token and the configured number; a stop token only at the end, and there unless
      the number was reached. */
  lemma OutputStopsRight(m: Model, cfg: Config, chance: Chance, prompt: string)
    requires m.sharedBuffer.None? && Generate(m, cfg, chance, prompt).result.Success?
    ensures StopsRight(m, cfg, Generate(m, cfg, chance, prompt).result.value)
  {
    var context := m.encode(prompt).value;
    var pre := PrefillPrompt(m, cfg, chance, context, FirstCacheState(m, cfg).value);
    DecodeStopsRight(m, cfg, chance, context, [], pre.state.value, pre.initialLen, pre.passes);
  }

  // ---- what decoding depends on ----

  /** The passes already made do not influence the tokens. */
  lemma {:induction false} DecodeIgnoresPasses(m: Model, cfg: Config, chance: Chance, context: seq<int>, generated: seq<int>,
                                               state: CacheState, initialLen: nat, passes: seq<Pass>, passes': seq<Pass>)
    requires context != []
    ensures DecodeFrom(m, cfg, chance, context, generated, state, initialLen, passes).result
         == DecodeFrom(m, cfg, chance, context, generated, state, initialLen, passes').result
    decreases Max1(cfg.maxNewTokens) - |generated|
  {
    if |generated| < Max1(cfg.maxNewTokens) {
      var p := DecodePass(context, state, initialLen, CacheEnabled(m, cfg));
      var d := DecodeStep(m, p, chance, |generated|, CacheEnabled(m, cfg));
      if d.Success? && d.value.token !in m.stopIds {
        DecodeIgnoresPasses(m, cfg, chance, context + [d.value.token], generated + [d.value.token], d.value.state,
                            initialLen, passes + [p], passes' + [p]);
      }
    }
  }

  // ---- every history of calls ----

  /** Between calls no cache is saved, so no prefix is ever reused. */
  predicate NothingSaved(pre: Prefix) {
    pre.state == map[] && pre.hits == 0
  }

  lemma CallKeepsNothingSaved(m: Model, cfg: Config, chance: Chance, prompt: string, pre: Prefix)
    requires NothingSaved(pre)
    ensures NothingSaved(GenerateOnSession(m, cfg, chance, prompt, pre).1)
    ensures GenerateOnSession(m, cfg, chance, prompt, pre).0 == Generate(m, cfg, chance, prompt)
  {
  }

  /** What a call leaves: nothing without a cache or before the first pass; after a prefill one more miss, and
      after one that succeeded the prompt's tokens. */
  lemma CallSaves(m: Model, cfg: Config, chance: Chance, prompt: string, pre: Prefix)
    requires NothingSaved(pre)
    ensures var (run, saved) := GenerateOnSession(m, cfg, chance, prompt, pre);
      && (!CacheEnabled(m, cfg) || run.passes == [] ==> saved == pre)
      && (CacheEnabled(m, cfg) && run.passes != [] ==> saved.misses == pre.misses + 1 && saved.hits == 0 && saved.state == map[])
      && (CacheEnabled(m, cfg) && run.passes != [] && run.result.Success? ==>
            saved.ids == m.encode(prompt).value && saved.len == |saved.ids|)
  {
    hide DecodeStep, Prefill, FirstCacheState, InitialCacheLen;
    var ids, state := m.encode(prompt), FirstCacheState(m, cfg);
    if ids.Success? && ids.value != [] && m.sharedBuffer.None? && state.Success? {
      var pass := FullPrefillPass(m, ids.value, state.value, chance);
      var (prefilled, saved) := PrefillOnPrefix(m, cfg, chance, ids.value, state.value, pre);
      if prefilled.state.Success? {
        DecodeKeepsPasses(m, cfg, chance, ids.value, [], prefilled.state.value, prefilled.initialLen, prefilled.passes);
      }
    }
  }

  lemma {:induction false} DecodeKeepsPasses(m: Model, cfg: Config, chance: Chance, context: seq<int>, generated: seq<int>,
                                             state: CacheState, initialLen: nat, passes: seq<Pass>)
    requires context != []
    ensures passes <= DecodeFrom(m, cfg, chance, context, generated, state, initialLen, passes).passes
    ensures |generated| < Max1(cfg.maxNewTokens) && passes == [] ==>
      var run := DecodeFrom(m, cfg, chance, context, generated, state, initialLen, passes);
      run.passes != [] && run.passes[0].state == state
    decreases Max1(cfg.maxNewTokens) - |generated|
  {
    hide DecodeStep, Max1;
    if |generated| < Max1(cfg.maxNewTokens) {
      var p := DecodePass(context, state, initialLen, CacheEnabled(m, cfg));
      var d := DecodeStep(m, p, chance, |generated|, CacheEnabled(m, cfg));
      if d.Success? && d.value.token !in m.stopIds {
        DecodeKeepsPasses(m, cfg, chance, context + [d.value.token], generated + [d.value.token], d.value.state, initialLen,
                          passes + [p]);
      }
    }
  }

  /** A prompt that cannot be encoded, or has no tokens, fails before any pass. */
  lemma NoTokensNoPass(m: Model, cfg: Config, chance: Chance, prompt: string)
    requires m.encode(prompt).Failure? || m.encode(prompt).value == []
    ensures var run := Generate(m, cfg, chance, prompt);
      && run.passes == [] && run.result.Failure?
      && (m.encode(prompt).Failure? ==> run.result.error == m.encode(prompt).error)
      && (m.encode(prompt).Success? && (m.sharedBuffer.Some? || FirstCacheState(m, cfg).Success?) ==>
            run.result.error == EmptyPrompt)
  {
    hide FirstCacheState;
  }

  datatype Request = Request(cfg: Config, chance: Chance, prompt: string)

  ghost function Serve(m: Model, pre: Prefix, requests: seq<Request>): (runs: seq<Run>)
    ensures |runs| == |requests|
    decreases |requests|
  {
    if requests == [] then []
    else
      var r := requests[0];
      var (run, saved) := GenerateOnSession(m, r.cfg, r.chance, r.prompt, pre);
      [run] + Serve(m, saved, requests[1..])
  }

  /** Whatever was asked before, failed calls included, a call on the kept session makes the passes
      and generates the tokens of a fresh session. */
  lemma {:induction false} HistoryDoesNotMatter(m: Model, pre: Prefix, requests: seq<Request>, i: nat)
    requires NothingSaved(pre) && i < |requests|
    ensures Serve(m, pre, requests)[i] == Generate(m, requests[i].cfg, requests[i].chance, requests[i].prompt)
    decreases i
  {
    var r := requests[0];
    CallKeepsNothingSaved(m, r.cfg, r.chance, r.prompt, pre);
    if i > 0 {
      HistoryDoesNotMatter(m, GenerateOnSession(m, r.cfg, r.chance, r.prompt, pre).1, requests[1..], i - 1);
    }
  }

  /** The engine's session slot (`run_prompt_cached`): built on the first call that can build it. */
  class SessionSlot {
    var cache: SessionCache?

    predicate Valid()
      reads this, cache
    {
      cache != null ==> NothingSaved(cache.Saved())
    }

    constructor ()
      ensures Valid() && cache == null
    {
      cache := null;
    }

    /** `built` is what building a session from the configuration gives at the time of the call. */
    method RunPromptCached(built: Result<Model, ModelError>, cfg: Config, chance: Chance, prompt: string)
      returns (r: Result<string, ModelError>)
      requires Valid()
      modifies this, cache
      ensures Valid() && (old(cache) != null ==> cache == old(cache))
      ensures var model := if old(cache) == null then built else Success(old(cache).model);
              if model.Failure? then r == Failure(model.error)
              else IsAnswer(model.value, Generate(model.value, cfg, chance, prompt).result, r)
    {
      if cache == null {
        if built.Failure? {
          return Failure(built.error);
        }
        cache := new SessionCache(built.value);
      }
      CallKeepsNothingSaved(cache.model, cfg, chance, prompt, cache.Saved());
      var passes;
      r, passes := cache.RunPromptOnSession(cfg, chance, prompt);
    }
  }

  // ---- uniform cache tensors ----

  /** The past length a cache input starts with. */
  function InitialPast(spec: CacheTensorSpec, allowZero: bool): int
    requires spec.pastAxis == InferCachePastAxis(spec.input.shape)
  {
    FilledIn(spec.input.shape, spec.pastAxis, EffectivePastLen(0, allowZero))[spec.pastAxis]
  }

  /** All cache inputs have the same rank and start with the same past length. */
  ghost predicate UniformSpecs(layout: SessionLayout, allowZero: bool) {
    && (forall spec | spec in layout.cacheSpecs :: spec.pastAxis == InferCachePastAxis(spec.input.shape))
    && (forall a, b | a in layout.cacheSpecs && b in layout.cacheSpecs ::
          a.pastAxis == b.pastAxis && InitialPast(a, allowZero) == InitialPast(b, allowZero))
  }

  /** Every cache tensor has `past` entries on its past axis. */
  ghost predicate PastIs(layout: SessionLayout, state: CacheState, past: nat) {
    forall spec | spec in layout.cacheSpecs ::
      && spec.input.name in state
      && spec.pastAxis < |state[spec.input.name].shape|
      && state[spec.input.name].shape[spec.pastAxis] == past
  }

  lemma InitialTensorShape(spec: CacheTensorSpec, allowZero: bool)
    requires InitialTensor(spec, 0, allowZero).Success?
    ensures InitialTensor(spec, 0, allowZero).value.shape == FilledIn(spec.input.shape, spec.pastAxis, EffectivePastLen(0, allowZero))
    ensures NonNegative(InitialTensor(spec, 0, allowZero).value.shape)
  {
    NumElementsExact(FilledIn(spec.input.shape, spec.pastAxis, EffectivePastLen(0, allowZero)));
  }

  lemma SpecTensorPast(spec: CacheTensorSpec, allowZero: bool)
    requires spec.pastAxis == InferCachePastAxis(spec.input.shape) && InitialTensor(spec, 0, allowZero).Success?
    ensures var shape := InitialTensor(spec, 0, allowZero).value.shape;
            spec.pastAxis < |shape| && shape[spec.pastAxis] == InitialPast(spec, allowZero) && InitialPast(spec, allowZero) >= 0
  {
    InitialTensorShape(spec, allowZero);
  }

  lemma InitialEntryPast(layout: SessionLayout, allowZero: bool, name: string)
    requires UniformSpecs(layout, allowZero) && InitializeCacheState(layout, 0, allowZero).Success?
    requires name in InitializeCacheState(layout, 0, allowZero).value
    ensures layout.cacheSpecs != []
    ensures var s0 := layout.cacheSpecs[0];
            var shape := InitializeCacheState(layout, 0, allowZero).value[name].shape;
            s0.pastAxis < |shape| && shape[s0.pastAxis] == InitialPast(s0, allowZero) && InitialPast(s0, allowZero) >= 0
  {
    hide InitialTensor, InitialPast, InferCachePastAxis, InitializeFrom;
    var state := InitializeCacheState(layout, 0, allowZero).value;
    var spec :| spec in layout.cacheSpecs && spec.input.name == name
                && InitialTensor(spec, 0, allowZero) == Success(state[name]);
    SpecTensorPast(spec, allowZero);
    assert layout.cacheSpecs[0] in layout.cacheSpecs;
  }

  lemma InitialStateNames(layout: SessionLayout, allowZero: bool)
    requires layout.cacheSpecs != [] && InitializeCacheState(layout, 0, allowZero).Success?
    ensures var state := InitializeCacheState(layout, 0, allowZero).value;
            state != map[] && forall spec | spec in layout.cacheSpecs :: spec.input.name in state
  {
    assert layout.cacheSpecs[0] in layout.cacheSpecs;
    assert layout.cacheSpecs[0].input.name in InitializeCacheState(layout, 0, allowZero).value;
  }

  /** Which entry a hash map yields first does not matter for uniform tensors. */
  lemma InitialLenIsPast(m: Model, cfg: Config, chance: Chance) returns (past: nat)
    requires m.layout.cacheSpecs != [] && UniformSpecs(m.layout, cfg.allowZeroDims)
    requires InitializeCacheState(m.layout, 0, cfg.allowZeroDims).Success?
    requires chance.first(InitializeCacheState(m.layout, 0, cfg.allowZeroDims).value)
             in InitializeCacheState(m.layout, 0, cfg.allowZeroDims).value
    ensures var state := InitializeCacheState(m.layout, 0, cfg.allowZeroDims).value;
            && PastIs(m.layout, state, past) && state != map[]
            && InitialCacheLen(m, state, chance) == (if m.layout.useCache.None? then past else 0)
    ensures past == InitialPast(m.layout.cacheSpecs[0], cfg.allowZeroDims)
  {
    hide InitialPast, InitializeCacheState, InferCachePastAxis;
    var state := InitializeCacheState(m.layout, 0, cfg.allowZeroDims).value;
    InitialStateNames(m.layout, cfg.allowZeroDims);
    InitialEntryPast(m.layout, cfg.allowZeroDims, chance.first(state));
    past := InitialPast(m.layout.cacheSpecs[0], cfg.allowZeroDims);
    forall spec | spec in m.layout.cacheSpecs
      ensures spec.pastAxis < |state[spec.input.name].shape|
      ensures state[spec.input.name].shape[spec.pastAxis] == past
    {
      InitialEntryPast(m.layout, cfg.allowZeroDims, spec.input.name);
      assert m.layout.cacheSpecs[0] in m.layout.cacheSpecs;
    }
  }

  lemma PrefillIgnoresMapOrder(m: Model, cfg: Config, c: Chance, c': Chance, context: seq<int>)
    requires UniformSpecs(m.layout, cfg.allowZeroDims) && FirstCacheState(m, cfg).Success?
    requires forall state: CacheState | state != map[] :: c.first(state) in state && c'.first(state) in state
    ensures var state := FirstCacheState(m, cfg).value;
            PrefillPrompt(m, cfg, c, context, state) == PrefillPrompt(m, cfg, c', context, state)
  {
    hide Prefill, InitialPast, InitializeCacheState, InferCachePastAxis, InitialCacheLen;
    if CacheEnabled(m, cfg) {
      InitialStateNames(m.layout, cfg.allowZeroDims);
      var past := InitialLenIsPast(m, cfg, c);
      var past' := InitialLenIsPast(m, cfg, c');
    }
  }

  /** A call is decided by its draws: hash map order plays no part in it. */
  lemma MapOrderDoesNotMatter(m: Model, cfg: Config, c: Chance, c': Chance, prompt: string)
    requires c.sample == c'.sample && UniformSpecs(m.layout, cfg.allowZeroDims)
    requires forall state: CacheState | state != map[] :: c.first(state) in state && c'.first(state) in state
    ensures Generate(m, cfg, c, prompt) == Generate(m, cfg, c', prompt)
  {
    var ids := m.encode(prompt);
    var first := FirstCacheState(m, cfg);
    if ids.Success? && ids.value != [] && m.sharedBuffer.None? && first.Success? {
      PrefillIgnoresMapOrder(m, cfg, c, c', ids.value);
      var pre := PrefillPrompt(m, cfg, c, ids.value, first.value);
      if pre.state.Success? {
        SameDraws(m, cfg, c, c', ids.value, [], pre.state.value, pre.initialLen, pre.passes);
      }
    }
  }

  lemma {:induction false} SameDraws(m: Model, cfg: Config, c: Chance, c': Chance, context: seq<int>, generated: seq<int>,
                                     state: CacheState, initialLen: nat, passes: seq<Pass>)
    requires context != [] && c.sample == c'.sample
    ensures DecodeFrom(m, cfg, c, context, generated, state, initialLen, passes)
         == DecodeFrom(m, cfg, c', context, generated, state, initialLen, passes)
    decreases Max1(cfg.maxNewTokens) - |generated|
  {
    if |generated| < Max1(cfg.maxNewTokens) {
      var p := DecodePass(context, state, initialLen, CacheEnabled(m, cfg));
      var d := DecodeStep(m, p, c, |generated|, CacheEnabled(m, cfg));
      assert d == DecodeStep(m, p, c', |generated|, CacheEnabled(m, cfg));
      if d.Success? && d.value.token !in m.stopIds {
        SameDraws(m, cfg, c, c', context + [d.value.token], generated + [d.value.token], d.value.state, initialLen, passes + [p]);
      }
    }
  }

  // ---- mask length and cache length ----

  /** The past entries a pass includes. */
  ghost predicate IncludesPast(layout: SessionLayout, p: Pass, past: nat) {
    if IncludesCache(layout, p.branch, p.state) then PastIs(layout, p.state, past) else past == 0
  }

  /** A forward pass appends its tokens to the past it is given. */
  ghost predicate GrowsPast(m: Model) {
    forall p: Pass, past: nat :: p.ids != [] && IncludesPast(m.layout, p, past) && Prefill(m, p).Success? ==>
      PastIs(m.layout, Prefill(m, p).value, past + |p.ids|)
  }

  /** A decode pass: the mask is as long as the cache. */
  ghost predicate MaskIsPast(layout: SessionLayout, p: Pass) {
    IncludesCache(layout, p.branch, p.state) && p.attentionLen >= 1 && PastIs(layout, p.state, p.attentionLen)
  }

  lemma StepBuildsCache(m: Model, p: Pass, chance: Chance, step: nat)
    requires DecodeStep(m, p, chance, step, true).Success?
    ensures Prefill(m, p) == Success(DecodeStep(m, p, chance, step, true).value.state)
  {
  }

  lemma {:induction false} DecodeMasksMatch(m: Model, cfg: Config, chance: Chance, context: seq<int>, generated: seq<int>,
                                            state: CacheState, initialLen: nat, passes: seq<Pass>, k: nat)
    requires context != [] && CacheEnabled(m, cfg) && GrowsPast(m)
    requires PastIs(m.layout, state, |context| + initialLen)
    requires forall i :: k <= i < |passes| ==> MaskIsPast(m.layout, passes[i])
    ensures var run := DecodeFrom(m, cfg, chance, context, generated, state, initialLen, passes);
            passes <= run.passes && forall i :: k <= i < |run.passes| ==> MaskIsPast(m.layout, run.passes[i])
    decreases Max1(cfg.maxNewTokens) - |generated|
  {
    if |generated| < Max1(cfg.maxNewTokens) {
      var p := DecodePass(context, state, initialLen, true);
      assert m.layout.cacheSpecs[0] in m.layout.cacheSpecs;
      assert MaskIsPast(m.layout, p) && IncludesPast(m.layout, p, |context| + initialLen);
      var d := DecodeStep(m, p, chance, |generated|, true);
      if d.Success? && d.value.token !in m.stopIds {
        StepBuildsCache(m, p, chance, |generated|);
        assert PastIs(m.layout, d.value.state, |context| + initialLen + 1);
        DecodeMasksMatch(m, cfg, chance, context + [d.value.token], generated + [d.value.token], d.value.state,
                         initialLen, passes + [p], k);
      }
    }
  }

  /** The prefill mask counts the past it includes and the prompt, and the cache it builds is that long. */
  lemma PrefillMaskMatches(m: Model, cfg: Config, chance: Chance, context: seq<int>)
    requires CacheEnabled(m, cfg) && UniformSpecs(m.layout, cfg.allowZeroDims) && GrowsPast(m) && context != []
    requires InitializeCacheState(m.layout, 0, cfg.allowZeroDims).Success?
    requires forall state: CacheState | state != map[] :: chance.first(state) in state
    ensures var state := InitializeCacheState(m.layout, 0, cfg.allowZeroDims).value;
            var p, included := FullPrefillPass(m, context, state, chance), InitialCacheLen(m, state, chance);
            && IncludesPast(m.layout, p, included) && p.attentionLen == included + |p.ids|
            && (Prefill(m, p).Success? ==> PastIs(m.layout, Prefill(m, p).value, |context| + included))
  {
    var state := InitializeCacheState(m.layout, 0, cfg.allowZeroDims).value;
    InitialStateNames(m.layout, cfg.allowZeroDims);
    var past := InitialLenIsPast(m, cfg, chance);
    assert IncludesPast(m.layout, FullPrefillPass(m, context, state, chance), InitialCacheLen(m, state, chance));
  }

  /** In every cached run the prefill mask counts the past it includes and the prompt, and the mask
      of every later pass is exactly as long as the cache, with or without a `use_cache` input. */
  lemma MasksMatchCache(m: Model, cfg: Config, chance: Chance, prompt: string)
    requires m.sharedBuffer.None? && CacheEnabled(m, cfg) && UniformSpecs(m.layout, cfg.allowZeroDims) && GrowsPast(m)
    requires forall state: CacheState | state != map[] :: chance.first(state) in state
    ensures var run := Generate(m, cfg, chance, prompt);
            run.passes != [] ==>
              && (exists past: nat ::
                    IncludesPast(m.layout, run.passes[0], past)
                    && run.passes[0].attentionLen == past + |run.passes[0].ids|)
              && m.encode(prompt) == Success(run.passes[0].ids)
              && forall i :: 1 <= i < |run.passes| ==> MaskIsPast(m.layout, run.passes[i])
  {
    hide Prefill, DecodeFrom, InitialCacheLen, IncludesPast, MaskIsPast, GrowsPast, UniformSpecs, InitializeCacheState;
    var ids := m.encode(prompt);
    var first := FirstCacheState(m, cfg);
    if ids.Success? && ids.value != [] && first.Success? {
      PrefillMaskMatches(m, cfg, chance, ids.value);
      var p := FullPrefillPass(m, ids.value, first.value, chance);
      var pre := FullPrefill(m, chance, ids.value, first.value);
      var run := DecodeAfter(m, cfg, chance, ids.value, pre);
      assert Generate(m, cfg, chance, prompt) == run;
      if pre.state.Success? {
        DecodeMasksMatch(m, cfg, chance, ids.value, [], pre.state.value, pre.initialLen, [p], 1);
      }
      assert run.passes[0] == p;
    }
  }

  // ---- what the model is fed ----

  /** The tokens of all passes, one after the other. */
  function FedIds(passes: seq<Pass>): seq<int> {
    if passes == [] then [] else FedIds(passes[..|passes| - 1]) + passes[|passes| - 1].ids
  }

  lemma FedSnoc(passes: seq<Pass>, p: Pass)
    ensures FedIds(passes + [p]) == FedIds(passes) + p.ids
  {
    assert (passes + [p])[..|passes|] == passes;
  }

  lemma {:induction false} CachedDecodeFeeds(m: Model, cfg: Config, chance: Chance, context: seq<int>, generated: seq<int>,
                                             state: CacheState, initialLen: nat, passes: seq<Pass>)
    requires context != [] && CacheEnabled(m, cfg) && |generated| < Max1(cfg.maxNewTokens)
    ensures var run := DecodeFrom(m, cfg, chance, context, generated, state, initialLen, passes);
            run.result.Success? ==>
              var all := run.result.value;
              |all| > |generated|
              && FedIds(run.passes) == FedIds(passes) + [context[|context| - 1]] + all[|generated|..|all| - 1]
    decreases Max1(cfg.maxNewTokens) - |generated|
  {
    hide DecodeStep, Max1, FedIds, CacheEnabled;
    var p := DecodePass(context, state, initialLen, true);
    var d := DecodeStep(m, p, chance, |generated|, true);
    FedSnoc(passes, p);
    if d.Success? && d.value.token !in m.stopIds && |generated| + 1 < Max1(cfg.maxNewTokens) {
      var token := d.value.token;
      var next, more := generated + [token], context + [token];
      CachedDecodeFeeds(m, cfg, chance, more, next, d.value.state, initialLen, passes + [p]);
      var run := DecodeFrom(m, cfg, chance, context, generated, state, initialLen, passes);
      if run.result.Success? {
        DecodePrefix(m, cfg, chance, more, next, d.value.state, initialLen, passes + [p]);
        var all := run.result.value;
        TailAfter(generated, token, all);
      }
    }
  }

  lemma TailAfter(generated: seq<int>, token: int, all: seq<int>)
    requires generated + [token] <= all && |generated| + 1 < |all|
    ensures all[|generated|..|all| - 1] == [token] + all[|generated| + 1..|all| - 1]
  {
    assert all[|generated|] == token;
  }

  /** What was generated stays. */
  lemma {:induction false} DecodePrefix(m: Model, cfg: Config, chance: Chance, context: seq<int>, generated: seq<int>,
                                        state: CacheState, initialLen: nat, passes: seq<Pass>)
    requires context != []
    ensures var run := DecodeFrom(m, cfg, chance, context, generated, state, initialLen, passes);
            run.result.Success? ==> generated <= run.result.value
    decreases Max1(cfg.maxNewTokens) - |generated|
  {
    hide DecodeStep, Max1;
    if |generated| < Max1(cfg.maxNewTokens) {
      var p := DecodePass(context, state, initialLen, CacheEnabled(m, cfg));
      var d := DecodeStep(m, p, chance, |generated|, CacheEnabled(m, cfg));
      if d.Success? && d.value.token !in m.stopIds {
        DecodePrefix(m, cfg, chance, context + [d.value.token], generated + [d.value.token], d.value.state, initialLen, passes + [p]);
      }
    }
  }

  lemma {:induction false} UncachedDecodeFeeds(m: Model, cfg: Config, chance: Chance, prompt: seq<int>, generated: seq<int>,
                                               state: CacheState, passes: seq<Pass>)
    requires prompt != [] && !CacheEnabled(m, cfg) && |passes| == |generated|
    requires forall i :: 0 <= i < |passes| ==> passes[i].ids == prompt + generated[..i]
    ensures var run := DecodeFrom(m, cfg, chance, prompt + generated, generated, state, 0, passes);
            run.result.Success? ==>
              && |run.passes| == |run.result.value|
              && forall i :: 0 <= i < |run.passes| ==> run.passes[i].ids == prompt + run.result.value[..i]
    decreases Max1(cfg.maxNewTokens) - |generated|
  {
    hide DecodeStep, Max1;
    if |generated| < Max1(cfg.maxNewTokens) {
      var context := prompt + generated;
      var p := DecodePass(context, state, 0, false);
      var d := DecodeStep(m, p, chance, |generated|, false);
      if d.Success? {
        var next := generated + [d.value.token];
        assert context + [d.value.token] == prompt + next;
        forall i | 0 <= i < |passes + [p]| ensures (passes + [p])[i].ids == prompt + next[..i] {
          assert i < |generated| ==> next[..i] == generated[..i];
          assert i == |generated| ==> next[..i] == generated;
        }
        if d.value.token !in m.stopIds {
          UncachedDecodeFeeds(m, cfg, chance, prompt, next, d.value.state, passes + [p]);
        }
      }
    }
  }

  /** What decoding starts from in a call that succeeds. */
  lemma SuccessDecodes(m: Model, cfg: Config, chance: Chance, prompt: string)
    requires m.sharedBuffer.None? && Generate(m, cfg, chance, prompt).result.Success?
    ensures m.encode(prompt).Success? && m.encode(prompt).value != [] && FirstCacheState(m, cfg).Success?
    ensures var ids := m.encode(prompt).value;
            var pre := PrefillPrompt(m, cfg, chance, ids, FirstCacheState(m, cfg).value);
            pre.state.Success?
            && Generate(m, cfg, chance, prompt) == DecodeFrom(m, cfg, chance, ids, [], pre.state.value, pre.initialLen, pre.passes)
  {
    hide PrefillPrompt, DecodeFrom, FirstCacheState;
  }

  lemma PrefillFeeds(m: Model, cfg: Config, chance: Chance, ids: seq<int>, state: CacheState)
    ensures var pre := PrefillPrompt(m, cfg, chance, ids, state);
            if CacheEnabled(m, cfg) then FedIds(pre.passes) == ids else pre.passes == [] && pre.initialLen == 0
  {
    hide Prefill, InitialCacheLen;
    if CacheEnabled(m, cfg) {
      var passes := PrefillPrompt(m, cfg, chance, ids, state).passes;
      assert |passes| == 1 && passes[..0] == [];
    }
  }

  /** With a cache the model is fed the prompt, the last prompt token once more, and all it generated but
      the last token. Without one each pass feeds the prompt and what was generated so far, so that token
      is never doubled. */
  lemma RunsFeed(m: Model, cfg: Config, chance: Chance, prompt: string)
    requires m.sharedBuffer.None? && Generate(m, cfg, chance, prompt).result.Success?
    ensures var run := Generate(m, cfg, chance, prompt);
            var ids, generated := m.encode(prompt), run.result.value;
            && ids.Success? && ids.value != [] && generated != []
            && if CacheEnabled(m, cfg)
               then FedIds(run.passes) == ids.value + [ids.value[|ids.value| - 1]] + generated[..|generated| - 1]
               else |run.passes| == |generated| && forall i :: 0 <= i < |run.passes| ==> run.passes[i].ids == ids.value + generated[..i]
  {
    hide Generate, DecodeFrom, FirstCacheState, PrefillPrompt, FedIds, CacheEnabled;
    SuccessDecodes(m, cfg, chance, prompt);
    OutputStopsRight(m, cfg, chance, prompt);
    var ids, state := m.encode(prompt).value, FirstCacheState(m, cfg).value;
    PrefillFeeds(m, cfg, chance, ids, state);
    var pre := PrefillPrompt(m, cfg, chance, ids, state);
    if CacheEnabled(m, cfg) {
      CachedDecodeFeeds(m, cfg, chance, ids, [], pre.state.value, pre.initialLen, pre.passes);
    } else {
      NothingPrefilled(m, cfg, chance, ids, state);
      var none: seq<int> := [];
      assert ids + none == ids;
      UncachedDecodeFeeds(m, cfg, chance, ids, [], state, []);
    }
  }

  lemma NothingPrefilled(m: Model, cfg: Config, chance: Chance, ids: seq<int>, state: CacheState)
    requires !CacheEnabled(m, cfg)
    ensures PrefillPrompt(m, cfg, chance, ids, state) == Prefilled(Success(state), 0, [])
  {
  }
}
