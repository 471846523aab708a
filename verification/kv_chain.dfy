/** How the passes of a call hang together (inference_bridge/src/onnx_vitis.rs): each generated token is a
    draw from the scores of its pass, and each pass is handed the cache the pass before it gave out. */
module KvChain {
  import opened Wrappers
  import opened Text
  import opened TensorShapes
  import opened SessionLayouts
  import opened InputSupply
  import opened KvGeneration
  import opened KvTheorems

  predicate HasName(outputs: seq<NamedTensor>, name: string) {
    exists i :: 0 <= i < |outputs| && outputs[i].0 == name
  }

  /** The output the layout names, else one of two conventional names, else the first. */
  predicate AreScores(layout: SessionLayout, outputs: seq<NamedTensor>, t: Tensor) {
    && outputs != []
    && if HasName(outputs, layout.logitsOutputName) then (layout.logitsOutputName, t) in outputs
       else if HasName(outputs, "logits") then ("logits", t) in outputs
       else if HasName(outputs, "lm_logits") then ("lm_logits", t) in outputs
       else t == outputs[0].1
  }

  /** The token drawn at a step of decoding from what the pass gave out. */
  ghost predicate IsDraw(m: Model, chance: Chance, p: Pass, step: nat, token: int) {
    exists outputs, t :: RunPass(m, p) == Success(outputs) && AreScores(m.layout, outputs, t) && chance.sample(t, step) == Success(token)
  }

  /** The cache holds, for each cache input and for nothing else, the output of the pass that feeds it. */
  ghost predicate IsHandedOn(m: Model, p: Pass, state: CacheState) {
    exists outputs :: RunPass(m, p) == Success(outputs) && IsCacheOf(m.layout.cacheSpecs, outputs, state)
  }

  ghost predicate IsCacheOf(specs: seq<CacheTensorSpec>, outputs: seq<NamedTensor>, state: CacheState) {
    && state.Keys == (set spec | spec in specs :: spec.input.name)
    && forall spec | spec in specs :: spec.input.name in state && (spec.outputName, state[spec.input.name]) in outputs
  }

  // ---- one pass ----

  lemma {:induction false} LookupIsThere(outputs: seq<NamedTensor>, name: string)
    ensures Lookup(outputs, name).Some? <==> HasName(outputs, name)
    ensures Lookup(outputs, name).Some? ==> (name, Lookup(outputs, name).value) in outputs
  {
    if outputs != [] {
      LookupIsThere(outputs[1..], name);
      assert forall i :: 0 < i < |outputs| ==> outputs[i] == outputs[1..][i - 1];
    }
  }

  lemma LogitsAreScores(layout: SessionLayout, outputs: seq<NamedTensor>)
    requires LogitsOf(layout, outputs).Success?
    ensures AreScores(layout, outputs, LogitsOf(layout, outputs).value)
  {
    hide Lookup, HasName;
    LookupIsThere(outputs, layout.logitsOutputName);
    LookupIsThere(outputs, "logits");
    LookupIsThere(outputs, "lm_logits");
  }

  lemma {:induction false} WithoutIsPart(outputs: seq<NamedTensor>, name: string)
    ensures forall x | x in Without(outputs, name) :: x in outputs
  {
    if outputs != [] {
      WithoutIsPart(outputs[1..], name);
    }
  }

  lemma {:induction false} CollectedKeys(specs: seq<CacheTensorSpec>, outputs: seq<NamedTensor>, next: CacheState)
    requires CollectCache(specs, outputs, next).Success?
    ensures CollectCache(specs, outputs, next).value.Keys == next.Keys + (set spec | spec in specs :: spec.input.name)
  {
    hide Lookup, Without;
    if specs != [] {
      var spec := specs[0];
      assert specs == [spec] + specs[1..];
      CollectedKeys(specs[1..], Without(outputs, spec.outputName), next[spec.input.name := Lookup(outputs, spec.outputName).value]);
    }
  }

  lemma {:induction false} CollectedKeeps(specs: seq<CacheTensorSpec>, outputs: seq<NamedTensor>, next: CacheState, name: string)
    requires CollectCache(specs, outputs, next).Success? && name in next
    requires forall spec | spec in specs :: spec.input.name != name
    ensures name in CollectCache(specs, outputs, next).value && CollectCache(specs, outputs, next).value[name] == next[name]
  {
    hide Lookup, Without;
    if specs != [] {
      var spec := specs[0];
      assert spec in specs;
      CollectedKeeps(specs[1..], Without(outputs, spec.outputName), next[spec.input.name := Lookup(outputs, spec.outputName).value],
                     name);
    }
  }

  lemma {:induction false} CollectedAre(specs: seq<CacheTensorSpec>, outputs: seq<NamedTensor>, next: CacheState)
    requires Distinct(CacheInputNames(specs)) && CollectCache(specs, outputs, next).Success?
    ensures var state := CollectCache(specs, outputs, next).value;
      forall spec | spec in specs :: spec.input.name in state && (spec.outputName, state[spec.input.name]) in outputs
  {
    hide Lookup, Without;
    if specs != [] {
      var spec, rest := specs[0], specs[1..];
      var left, first := Without(outputs, spec.outputName), next[spec.input.name := Lookup(outputs, spec.outputName).value];
      LookupIsThere(outputs, spec.outputName);
      WithoutIsPart(outputs, spec.outputName);
      NamesOfRest(specs);
      CollectedAre(rest, left, first);
      CollectedKeeps(rest, left, first, spec.input.name);
      assert specs == [spec] + rest;
    }
  }

  lemma NamesOfRest(specs: seq<CacheTensorSpec>)
    requires specs != [] && Distinct(CacheInputNames(specs))
    ensures Distinct(CacheInputNames(specs[1..])) && forall spec | spec in specs[1..] :: spec.input.name != specs[0].input.name
  {
    var names, later := CacheInputNames(specs), CacheInputNames(specs[1..]);
    assert forall j :: 0 <= j < |later| ==> later[j] == names[j + 1];
    forall spec | spec in specs[1..] ensures spec.input.name != specs[0].input.name {
      var j :| 0 <= j < |specs| - 1 && specs[1..][j] == spec;
      assert names[j + 1] == spec.input.name && names[0] == specs[0].input.name;
    }
  }

  lemma PrefillHandsOn(m: Model, p: Pass)
    requires Distinct(CacheInputNames(m.layout.cacheSpecs)) && Prefill(m, p).Success?
    ensures IsHandedOn(m, p, Prefill(m, p).value)
  {
    hide RunPass, LogitsOf, CollectCache, Distinct;
    CollectedAre(m.layout.cacheSpecs, RunPass(m, p).value, map[]);
    CollectedKeys(m.layout.cacheSpecs, RunPass(m, p).value, map[]);
  }

  lemma StepDraws(m: Model, p: Pass, chance: Chance, step: nat, cacheEnabled: bool)
    requires DecodeStep(m, p, chance, step, cacheEnabled).Success?
    ensures var d := DecodeStep(m, p, chance, step, cacheEnabled).value;
      && IsDraw(m, chance, p, step, d.token)
      && (if cacheEnabled then Distinct(CacheInputNames(m.layout.cacheSpecs)) ==> IsHandedOn(m, p, d.state) else d.state == p.state)
  {
    hide RunPass, LogitsOf, CollectCache, Distinct, AreScores;
    var outputs := RunPass(m, p).value;
    LogitsAreScores(m.layout, outputs);
    if cacheEnabled && Distinct(CacheInputNames(m.layout.cacheSpecs)) {
      CollectedAre(m.layout.cacheSpecs, outputs, map[]);
      CollectedKeys(m.layout.cacheSpecs, outputs, map[]);
    }
  }

  // ---- a whole call ----

  /** Decode pass `i` draws token `i`. With a cache it is fed the token before. */
  ghost predicate Draws(m: Model, chance: Chance, on: bool, prompt: seq<int>, generated: seq<int>, p: Pass, i: nat)
    requires prompt != [] && i < |generated|
  {
    && IsDraw(m, chance, p, i, generated[i]) && p.branch == on
    && (on ==> p.ids == [if i == 0 then prompt[|prompt| - 1] else generated[i - 1]])
  }

  /** From place `k` on the passes draw the tokens. With a cache each hands its own on, the last one as
      `state`; without one they share `state`. */
  ghost predicate Hangs(m: Model, chance: Chance, on: bool, prompt: seq<int>, generated: seq<int>, passes: seq<Pass>, k: nat,
                        state: CacheState)
    requires prompt != []
  {
    && |passes| == k + |generated|
    && (forall j :: k <= j < |passes| ==> Draws(m, chance, on, prompt, generated, passes[j], j - k))
    && if on
       then (forall j :: 0 < j < |passes| ==> IsHandedOn(m, passes[j - 1], passes[j].state))
            && (passes != [] ==> IsHandedOn(m, passes[|passes| - 1], state))
       else forall j :: k <= j < |passes| ==> passes[j].state == state
  }

  lemma StepHangs(m: Model, chance: Chance, on: bool, prompt: seq<int>, generated: seq<int>, passes: seq<Pass>, k: nat,
                  p: Pass, token: int, next: CacheState)
    requires prompt != [] && Hangs(m, chance, on, prompt, generated, passes, k, p.state)
    requires Draws(m, chance, on, prompt, generated + [token], p, |generated|)
    requires if on then IsHandedOn(m, p, next) else next == p.state
    ensures Hangs(m, chance, on, prompt, generated + [token], passes + [p], k, next)
  {
    hide IsDraw, IsHandedOn;
    forall j | k <= j < |passes| + 1
      ensures Draws(m, chance, on, prompt, generated + [token], (passes + [p])[j], j - k)
    {
      if j < |passes| {
        assert Draws(m, chance, on, prompt, generated, passes[j], j - k);
      }
    }
  }

  lemma {:induction false} DecodeHangs(m: Model, cfg: Config, chance: Chance, prompt: seq<int>, generated: seq<int>,
                                       state: CacheState, initialLen: nat, passes: seq<Pass>, k: nat)
    requires prompt != [] && Distinct(CacheInputNames(m.layout.cacheSpecs))
    requires Hangs(m, chance, CacheEnabled(m, cfg), prompt, generated, passes, k, state)
    ensures var run := DecodeFrom(m, cfg, chance, prompt + generated, generated, state, initialLen, passes);
      run.result.Success? ==> exists last :: Hangs(m, chance, CacheEnabled(m, cfg), prompt, run.result.value, run.passes, k, last)
    decreases Max1(cfg.maxNewTokens) - |generated|
  {
    hide DecodeStep, Max1, Hangs, Distinct, CacheEnabled;
    if |generated| < Max1(cfg.maxNewTokens) {
      var context, on := prompt + generated, CacheEnabled(m, cfg);
      var p := DecodePass(context, state, initialLen, on);
      var d := DecodeStep(m, p, chance, |generated|, on);
      if d.Success? {
        var next := generated + [d.value.token];
        assert context + [d.value.token] == prompt + next;
        StepDraws(m, p, chance, |generated|, on);
        StepHangs(m, chance, on, prompt, generated, passes, k, p, d.value.token, d.value.state);
        if d.value.token !in m.stopIds {
          DecodeHangs(m, cfg, chance, prompt, next, d.value.state, initialLen, passes + [p], k);
        }
      }
    }
  }

  /** In a call that succeeds each token is the draw from its own pass. With a cache the first of these passes
      is fed the last prompt token and each later one the token just drawn, and every pass after the prefill
      is handed exactly the cache outputs of the one before. Without one the first cache tensors stay. */
  lemma TokensAreDraws(m: Model, cfg: Config, chance: Chance, prompt: string)
    requires m.sharedBuffer.None? && Generate(m, cfg, chance, prompt).result.Success?
    requires Distinct(CacheInputNames(m.layout.cacheSpecs))
    ensures m.encode(prompt).Success? && m.encode(prompt).value != [] && FirstCacheState(m, cfg).Success?
    ensures Generate(m, cfg, chance, prompt).passes != []
    ensures var run, on := Generate(m, cfg, chance, prompt), CacheEnabled(m, cfg);
      && (exists last :: Hangs(m, chance, on, m.encode(prompt).value, run.result.value, run.passes, Count(on), last))
      && run.passes[0].state == FirstCacheState(m, cfg).value
      && (on ==> run.passes[0].ids == m.encode(prompt).value && !run.passes[0].branch)
  {
    hide Generate, DecodeFrom, FirstCacheState, Hangs, Prefill, InitialCacheLen, Distinct;
    SuccessDecodes(m, cfg, chance, prompt);
    var ids, state := m.encode(prompt).value, FirstCacheState(m, cfg).value;
    var pre := PrefillPrompt(m, cfg, chance, ids, state);
    var on := CacheEnabled(m, cfg);
    if on {
      PrefillHandsOn(m, pre.passes[0]);
    }
    StartHangs(m, chance, on, ids, pre.passes, pre.state.value);
    var none: seq<int> := [];
    assert ids + none == ids;
    DecodeHangs(m, cfg, chance, ids, [], pre.state.value, pre.initialLen, pre.passes, Count(on));
    OutputStopsRight(m, cfg, chance, prompt);
    DecodeKeepsPasses(m, cfg, chance, ids, [], pre.state.value, pre.initialLen, pre.passes);
  }

  function Count(on: bool): nat {
    if on then 1 else 0
  }

  lemma StartHangs(m: Model, chance: Chance, on: bool, ids: seq<int>, passes: seq<Pass>, state: CacheState)
    requires ids != [] && |passes| == Count(on) && (on ==> IsHandedOn(m, passes[0], state))
    ensures Hangs(m, chance, on, ids, [], passes, Count(on), state)
  {
  }
}
