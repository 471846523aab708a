/** Decoding with a key/value cache (inference_bridge/src/onnx_vitis.rs): `run_prompt` on a fresh
    session, `run_prompt_on_session` on a session kept between calls, and their common meaning.
    The runtime, the tokenizer, the sampler and the shared-buffer decoder are parameters. */
module KvGeneration {
  import opened Wrappers
  import opened Text
  import opened TensorShapes
  import opened SessionLayouts

  /** What a session is built from: a forward pass is a function of its named inputs. */
  datatype Model = Model(
    layout: SessionLayout,
    run: seq<NamedTensor> -> Result<seq<NamedTensor>, ModelError>,
    encode: string -> Result<seq<int>, ModelError>,
    decode: seq<int> -> Result<string, ModelError>,
    stopIds: set<int>,
    sharedBuffer: Option<(seq<int>, nat) -> Result<seq<int>, ModelError>>)

  /** Settings of one call and of its environment. */
  datatype Config = Config(maxNewTokens: nat, disableLiveCache: bool, allowZeroDims: bool)

  /** What a call leaves to chance: the draw of each decode step, and the entry a hash map yields
      first. */
  datatype Chance = Chance(sample: (Tensor, nat) -> Result<int, ModelError>, first: CacheState -> string)

  /** One forward pass: its tokens, the attention mask length, whether the cache branch is on, and
      the cache tensors at hand. */
  datatype Pass = Pass(ids: seq<int>, attentionLen: nat, branch: bool, state: CacheState)

  // ---- one forward pass ----

  function RunPass(m: Model, p: Pass): Result<seq<NamedTensor>, ModelError> {
    var inputs := BuildModelInputs(m.layout, p.ids, p.attentionLen, p.branch, p.state);
    if inputs.Failure? then Failure(inputs.error) else m.run(inputs.value)
  }

  function Lookup(outputs: seq<NamedTensor>, name: string): Option<Tensor> {
    if outputs == [] then None
    else if outputs[0].0 == name then Some(outputs[0].1)
    else Lookup(outputs[1..], name)
  }

  function Without(outputs: seq<NamedTensor>, name: string): seq<NamedTensor> {
    if outputs == [] then []
    else if outputs[0].0 == name then outputs[1..]
    else [outputs[0]] + Without(outputs[1..], name)
  }

  /** The named logits output, two conventional names, or the first output; with no output at all
      the indexing panics. */
  function LogitsOf(layout: SessionLayout, outputs: seq<NamedTensor>): Result<Tensor, ModelError> {
    if outputs == [] then Failure(NoOutputs)
    else if Lookup(outputs, layout.logitsOutputName).Some? then Success(Lookup(outputs, layout.logitsOutputName).value)
    else if Lookup(outputs, "logits").Some? then Success(Lookup(outputs, "logits").value)
    else if Lookup(outputs, "lm_logits").Some? then Success(Lookup(outputs, "lm_logits").value)
    else Success(outputs[0].1)
  }

  /** Moves each cache output to the input it feeds next. */
  function CollectCache(specs: seq<CacheTensorSpec>, outputs: seq<NamedTensor>, next: CacheState)
    : Result<CacheState, ModelError>
  {
    if specs == [] then Success(next)
    else
      var value := Lookup(outputs, specs[0].outputName);
      if value.None? then Failure(CacheOutputAbsent(specs[0].outputName))
      else CollectCache(specs[1..], Without(outputs, specs[0].outputName), next[specs[0].input.name := value.value])
  }

  /** A pass that only builds up the cache. */
  function Prefill(m: Model, p: Pass): Result<CacheState, ModelError> {
    var outputs := RunPass(m, p);
    if outputs.Failure? then Failure(outputs.error)
    else
      var logits := LogitsOf(m.layout, outputs.value);
      if logits.Failure? then Failure(logits.error)
      else CollectCache(m.layout.cacheSpecs, outputs.value, map[])
  }

  datatype Decoded = Decoded(token: int, state: CacheState)

  /** A pass that yields the next token, and the next cache if one is kept. */
  function DecodeStep(m: Model, p: Pass, chance: Chance, step: nat, cacheEnabled: bool): Result<Decoded, ModelError> {
    var outputs := RunPass(m, p);
    if outputs.Failure? then Failure(outputs.error)
    else
      var logits := LogitsOf(m.layout, outputs.value);
      if logits.Failure? then Failure(logits.error)
      else
        var token := chance.sample(logits.value, step);
        if token.Failure? then Failure(token.error)
        else if !cacheEnabled then Success(Decoded(token.value, p.state))
        else
          var next := CollectCache(m.layout.cacheSpecs, outputs.value, map[]);
          if next.Failure? then Failure(next.error) else Success(Decoded(token.value, next.value))
  }

  // ---- the meaning of a call ----

  predicate CacheEnabled(m: Model, cfg: Config) {
    m.layout.cacheSpecs != [] && !cfg.disableLiveCache
  }

  function FirstCacheState(m: Model, cfg: Config): Result<CacheState, ModelError> {
    if m.layout.cacheSpecs == [] then Success(map[]) else InitializeCacheState(m.layout, 0, cfg.allowZeroDims)
  }

  function AsUsize(d: int): nat {
    if d >= 0 then d else 0
  }

  /** The past length counted for the prefill: that of the first cache tensor the map yields, if the
      model has no switch that keeps the cache out of it. */
  function InitialCacheLen(m: Model, state: CacheState, chance: Chance): nat {
    if m.layout.useCache.None? && state != map[] && m.layout.cacheSpecs != [] && chance.first(state) in state then
      var shape := state[chance.first(state)].shape;
      var axis := m.layout.cacheSpecs[0].pastAxis;
      if axis < |shape| then AsUsize(shape[axis]) else 0
    else 0
  }

  /** The pass of decode step with `context` processed or generated so far. With a cache the mask
      counts past entries only. */
  function DecodePass(context: seq<int>, state: CacheState, initialLen: nat, cacheEnabled: bool): Pass
    requires context != []
  {
    if cacheEnabled then Pass([context[|context| - 1]], Max1(|context| + initialLen), true, state)
    else Pass(context, Max1(|context|), false, state)
  }

  /** The token ids or error, and the passes made. */
  datatype Run = Run(result: Result<seq<int>, ModelError>, passes: seq<Pass>)

  function DecodeFrom(m: Model, cfg: Config, chance: Chance, context: seq<int>, generated: seq<int>,
                      state: CacheState, initialLen: nat, passes: seq<Pass>): Run
    requires context != []
    decreases Max1(cfg.maxNewTokens) - |generated|
  {
    if |generated| >= Max1(cfg.maxNewTokens) then Run(Success(generated), passes)
    else
      var p := DecodePass(context, state, initialLen, CacheEnabled(m, cfg));
      var d := DecodeStep(m, p, chance, |generated|, CacheEnabled(m, cfg));
      if d.Failure? then Run(Failure(d.error), passes + [p])
      else if d.value.token in m.stopIds then Run(Success(generated + [d.value.token]), passes + [p])
      else DecodeFrom(m, cfg, chance, context + [d.value.token], generated + [d.value.token],
                      d.value.state, initialLen, passes + [p])
  }

  function FullPrefillPass(m: Model, context: seq<int>, state: CacheState, chance: Chance): Pass {
    Pass(context, |context| + InitialCacheLen(m, state, chance), false, state)
  }

  /** The cache the decode loop starts from, the past length it was padded by, and the passes made. */
  datatype Prefilled = Prefilled(state: Result<CacheState, ModelError>, initialLen: nat, passes: seq<Pass>)

  /** Prefill of the whole prompt. */
  function FullPrefill(m: Model, chance: Chance, context: seq<int>, state: CacheState): Prefilled {
    var p := FullPrefillPass(m, context, state, chance);
    Prefilled(Prefill(m, p), InitialCacheLen(m, state, chance), [p])
  }

  function PrefillPrompt(m: Model, cfg: Config, chance: Chance, context: seq<int>, state: CacheState): Prefilled {
    if CacheEnabled(m, cfg) then FullPrefill(m, chance, context, state) else Prefilled(Success(state), 0, [])
  }

  function DecodeAfter(m: Model, cfg: Config, chance: Chance, context: seq<int>, pre: Prefilled): Run
    requires context != []
  {
    if pre.state.Failure? then Run(Failure(pre.state.error), pre.passes)
    else DecodeFrom(m, cfg, chance, context, [], pre.state.value, pre.initialLen, pre.passes)
  }

  function SharedBufferRun(m: Model, cfg: Config, ids: seq<int>): Run
    requires m.sharedBuffer.Some?
  {
    Run(if ids == [] then Failure(EmptyPrompt) else m.sharedBuffer.value(ids, cfg.maxNewTokens), [])
  }

  /** The tokens a fresh session generates. An error in the first cache tensors is met before an empty
      prompt is. */
  function Generate(m: Model, cfg: Config, chance: Chance, prompt: string): Run {
    var ids := m.encode(prompt);
    if ids.Failure? then Run(Failure(ids.error), [])
    else if m.sharedBuffer.Some? then SharedBufferRun(m, cfg, ids.value)
    else
      var state := FirstCacheState(m, cfg);
      if state.Failure? then Run(Failure(state.error), [])
      else if ids.value == [] then Run(Failure(EmptyPrompt), [])
      else DecodeAfter(m, cfg, chance, ids.value, PrefillPrompt(m, cfg, chance, ids.value, state.value))
  }

  const NO_CONTINUATION := "(model produced no decodable continuation)"

  function FinalText(m: Model, result: Result<seq<int>, ModelError>): Result<string, ModelError> {
    if result.Failure? then Failure(result.error)
    else
      var text := m.decode(result.value);
      if text.Failure? then Failure(text.error)
      else Success("<final>" + (if Trim(text.value) == "" then NO_CONTINUATION else text.value) + "</final>")
  }

  /** What an agent that reads the final tag gets from the answer `r`: why there are no tokens or no text,
      the text up to a closing tag in it, or a notice instead of a blank one. */
  ghost predicate IsAnswer(m: Model, result: Result<seq<int>, ModelError>, r: Result<string, ModelError>) {
    match result
    case Failure(error) => r == Failure(error)
    case Success(ids) =>
      match m.decode(ids)
      case Failure(error) => r == Failure(error)
      case Success(text) =>
        && r.Success?
        && (if IsBlank(text) then ExtractTag(r.value, "final") == Some("(model produced no decodable continuation)")
            else ExtractTag(r.value, "final") == Some(Trim(text[..BodyEnd("final", text)]))
                 && r.value == "<final>" + text + "</final>")
  }

  lemma FinalTextIsAnswer(m: Model, result: Result<seq<int>, ModelError>)
    ensures IsAnswer(m, result, FinalText(m, result))
  {
    hide Trim, ExtractTag, FindFrom, IsBlank;
    if result.Success? && m.decode(result.value).Success? {
      var text := m.decode(result.value).value;
      TaggedIsRead("final", text);
      NoticeIsRead();
      assert Tagged("final", text) == "<final>" + text + "</final>";
      assert Tagged("final", NO_CONTINUATION) == "<final>" + NO_CONTINUATION + "</final>";
    }
  }

  lemma NoticeIsRead()
    ensures ExtractTag(Tagged("final", NO_CONTINUATION), "final") == Some("(model produced no decodable continuation)")
  {
    NoticeIsPlain();
    hide ExtractTag, NO_CONTINUATION, IsTrimmed, Trim;
    TaggedBody("final", NO_CONTINUATION);
    TrimOfTrimmed(NO_CONTINUATION);
  }

  lemma NoticeIsPlain()
    ensures '<' !in NO_CONTINUATION && IsTrimmed(NO_CONTINUATION)
    ensures NO_CONTINUATION == "(model produced no decodable continuation)"
  {
  }

  /** The answer read is blank just if the text begins, but for white space, with a closing tag. It is the
      whole text if that has no closing tag. */
  lemma AnswerIsBlankExactly(m: Model, ids: seq<int>, r: Result<string, ModelError>)
    requires IsAnswer(m, Success(ids), r) && m.decode(ids).Success?
    ensures r.Success? && ExtractTag(r.value, "final").Some?
    ensures var text, read := m.decode(ids).value, ExtractTag(r.value, "final").value;
      && (read == "" <==> exists i :: 0 <= i < |text| && IsBlank(text[..i]) && OccursAt(text, "</final>", i))
      && (!IsBlank(text) && !Contains(text, "</final>") ==> read == Trim(text))
  {
    hide Trim, ExtractTag, FindFrom, IsWhitespace;
    var text := m.decode(ids).value;
    var n := BodyEnd("final", text);
    assert "</" + "final" + ">" == "</final>";
    if !IsBlank(text) {
      if IsBlank(text[..n]) {
        assert text[..|text|] == text;
      }
      if i :| 0 <= i < |text| && IsBlank(text[..i]) && OccursAt(text, "</final>", i) {
        assert n <= i;
        BlankConcat(text[..n], text[n..i]);
        assert text[..i] == text[..n] + text[n..i];
      }
      if !Contains(text, "</final>") {
        assert n == |text| && text[..n] == text;
      }
    } else if i :| 0 <= i < |text| && OccursAt(text, "</final>", i) {
      assert text[i] == text[i..i + 8][0] == '<';
      AngleIsNotBlank();
    }
  }

  lemma AngleIsNotBlank()
    ensures !IsWhitespace('<')
  {
  }

  // ---- prefix reuse on a kept session ----

  /** What a session carries from one call to the next. */
  datatype Prefix = Prefix(ids: seq<int>, state: CacheState, len: nat, hits: nat, misses: nat)

  const BLANK := Prefix([], map[], 0, 0, 0)

  function SharedPrefix(a: seq<int>, b: seq<int>): (n: nat)
    ensures n <= |a| && n <= |b| && a[..n] == b[..n]
    ensures n < |a| && n < |b| ==> a[n] != b[n]
  {
    if a == [] || b == [] || a[0] != b[0] then 0
    else
      var n := 1 + SharedPrefix(a[1..], b[1..]);
      assert a[..n] == [a[0]] + a[1..][..n - 1] && b[..n] == [b[0]] + b[1..][..n - 1];
      n
  }

  predicate CanReuse(pre: Prefix, context: seq<int>) {
    && SharedPrefix(context, pre.ids) > 0
    && SharedPrefix(context, pre.ids) == pre.len
    && pre.state != map[]
  }

  /** The pass over the part of the prompt the saved cache does not cover. */
  function SuffixPass(pre: Prefix, context: seq<int>): Pass
    requires CanReuse(pre, context)
  {
    Pass(context[pre.len..], |context|, true, pre.state)
  }

  /** The saved cache is given up as soon as it is used, and never filled again. */
  function ReusedPrefix(m: Model, context: seq<int>, pre: Prefix): (Prefilled, Prefix)
    requires CanReuse(pre, context)
  {
    var used := pre.(state := map[], hits := pre.hits + 1);
    var saved := used.(ids := context, len := |context|);
    if context[pre.len..] == [] then (Prefilled(Success(pre.state), 0, []), saved)
    else
      var p := SuffixPass(pre, context);
      var next := Prefill(m, p);
      (Prefilled(next, 0, [p]), if next.Failure? then used else saved)
  }

  function MissedPrefix(m: Model, chance: Chance, context: seq<int>, state: CacheState, pre: Prefix): (Prefilled, Prefix) {
    var missed := pre.(misses := pre.misses + 1);
    var done := FullPrefill(m, chance, context, state);
    (done, if done.state.Failure? then missed else missed.(ids := context, state := map[], len := |context|))
  }

  /** The prefill of a call that may start from a saved cache, and what it saves. */
  function PrefillOnPrefix(m: Model, cfg: Config, chance: Chance, context: seq<int>, state: CacheState, pre: Prefix)
    : (Prefilled, Prefix)
  {
    if !CacheEnabled(m, cfg) then (Prefilled(Success(state), 0, []), pre)
    else if CanReuse(pre, context) then ReusedPrefix(m, context, pre)
    else MissedPrefix(m, chance, context, state, pre)
  }

  function GenerateOnSession(m: Model, cfg: Config, chance: Chance, prompt: string, pre: Prefix): (Run, Prefix) {
    var ids := m.encode(prompt);
    if ids.Failure? then (Run(Failure(ids.error), []), pre)
    else if m.sharedBuffer.Some? then (SharedBufferRun(m, cfg, ids.value), pre)
    else
      var state := FirstCacheState(m, cfg);
      if state.Failure? then (Run(Failure(state.error), []), pre)
      else if ids.value == [] then (Run(Failure(EmptyPrompt), []), pre)
      else
        var (prefilled, saved) := PrefillOnPrefix(m, cfg, chance, ids.value, state.value, pre);
        (DecodeAfter(m, cfg, chance, ids.value, prefilled), saved)
  }

  // ---- the two implementations ----

  /** The decode loop, which the source writes out in both functions. */
  method DecodeLoop(m: Model, cfg: Config, chance: Chance, prompt: seq<int>, initial: CacheState, initialLen: nat,
                    earlier: seq<Pass>)
    returns (r: Result<seq<int>, ModelError>, passes: seq<Pass>)
    requires prompt != []
    ensures Run(r, passes) == DecodeFrom(m, cfg, chance, prompt, [], initial, initialLen, earlier)
  {
    var cacheEnabled := m.layout.cacheSpecs != [] && !cfg.disableLiveCache;
    var context, state := prompt, initial;
    var generated: seq<int> := [];
    passes := earlier;
    while |generated| < Max1(cfg.maxNewTokens)
      invariant context != []
      invariant DecodeFrom(m, cfg, chance, prompt, [], initial, initialLen, earlier)
             == DecodeFrom(m, cfg, chance, context, generated, state, initialLen, passes)
      decreases Max1(cfg.maxNewTokens) - |generated|
    {
      var p := if cacheEnabled then Pass([context[|context| - 1]], Max1(|context| + initialLen), true, state)
               else Pass(context, Max1(|context|), false, state);
      passes := passes + [p];
      var d := DecodeStep(m, p, chance, |generated|, cacheEnabled);
      if d.Failure? {
        return Failure(d.error), passes;
      }
      state := d.value.state;
      context := context + [d.value.token];
      generated := generated + [d.value.token];
      if d.value.token in m.stopIds {
        break;
      }
    }
    r := Success(generated);
  }

  /** A fresh session for one prompt. `passes` lists the forward passes made. */
  method RunPrompt(m: Model, cfg: Config, chance: Chance, prompt: string)
    returns (r: Result<string, ModelError>, passes: seq<Pass>)
    ensures var run := Generate(m, cfg, chance, prompt);
            r == FinalText(m, run.result) && IsAnswer(m, run.result, r) && passes == run.passes
  {
    FinalTextIsAnswer(m, Generate(m, cfg, chance, prompt).result);
    hide IsAnswer, Prefill, DecodeFrom, FirstCacheState, InitialCacheLen, Trim;
    passes := [];
    var ids := m.encode(prompt);
    if ids.Failure? {
      return Failure(ids.error), passes;
    }
    var context := ids.value;
    if m.sharedBuffer.Some? {
      if context == [] {
        return Failure(EmptyPrompt), passes;
      }
      r := FinalText(m, m.sharedBuffer.value(context, cfg.maxNewTokens));
      return;
    }
    var cacheEnabled := m.layout.cacheSpecs != [] && !cfg.disableLiveCache;
    var first := FirstCacheState(m, cfg);
    if first.Failure? {
      return Failure(first.error), passes;
    }
    if context == [] {
      return Failure(EmptyPrompt), passes;
    }
    var state := first.value;
    var initialLen := 0;
    if cacheEnabled {
      initialLen := InitialCacheLen(m, state, chance);
      var p := Pass(context, |context| + initialLen, false, state);
      passes := [p];
      var next := Prefill(m, p);
      if next.Failure? {
        return Failure(next.error), passes;
      }
      state := next.value;
    }
    var generated: Result<seq<int>, ModelError>;
    generated, passes := DecodeLoop(m, cfg, chance, context, state, initialLen, passes);
    r := FinalText(m, generated);
  }

  /** A session kept between calls, with the prefix it may reuse. */
  class SessionCache {
    const model: Model
    var prevPromptIds: seq<int>
    var prevCacheState: CacheState
    var prevCacheLen: nat
    var prefixCacheHits: nat
    var prefixCacheMisses: nat

    function Saved(): Prefix
      reads this
    {
      Prefix(prevPromptIds, prevCacheState, prevCacheLen, prefixCacheHits, prefixCacheMisses)
    }

    constructor (model: Model)
      ensures this.model == model && Saved() == BLANK
    {
      this.model := model;
      prevPromptIds, prevCacheState, prevCacheLen := [], map[], 0;
      prefixCacheHits, prefixCacheMisses := 0, 0;
    }

    method CountSharedPrefix(context: seq<int>) returns (n: nat)
      ensures n == SharedPrefix(context, prevPromptIds)
    {
      n := 0;
      while n < |context| && n < |prevPromptIds| && context[n] == prevPromptIds[n]
        invariant n <= |context| && n <= |prevPromptIds| && context[..n] == prevPromptIds[..n]
      {
        n := n + 1;
      }
      SharedPrefixIs(context, prevPromptIds, n);
    }

    /** The branch that starts from the saved cache. */
    method ReusePrefix(context: seq<int>) returns (state: Result<CacheState, ModelError>, passes: seq<Pass>)
      requires CanReuse(Saved(), context)
      modifies this
      ensures (Prefilled(state, 0, passes), Saved()) == ReusedPrefix(model, context, old(Saved()))
    {
      prefixCacheHits := prefixCacheHits + 1;
      state, passes := Success(prevCacheState), [];
      var suffix := context[prevCacheLen..];
      if suffix != [] {
        var p := Pass(suffix, |context|, true, prevCacheState);
        passes := [p];
        state := Prefill(model, p);
      }
      prevCacheState := map[];
      if state.Success? {
        prevPromptIds, prevCacheLen := context, |context|;
      }
    }

    /** The branch that prefills the whole prompt. */
    method PrefillAll(chance: Chance, context: seq<int>, initial: CacheState)
      returns (state: Result<CacheState, ModelError>, initialLen: nat, passes: seq<Pass>)
      modifies this
      ensures (Prefilled(state, initialLen, passes), Saved())
           == MissedPrefix(model, chance, context, initial, old(Saved()))
    {
      hide Prefill, InitialCacheLen;
      prefixCacheMisses := prefixCacheMisses + 1;
      initialLen := InitialCacheLen(model, initial, chance);
      var p := Pass(context, |context| + initialLen, false, initial);
      passes := [p];
      state := Prefill(model, p);
      if state.Success? {
        prevPromptIds, prevCacheLen, prevCacheState := context, |context|, map[];
      }
    }

    /** The prefill of `run_prompt_on_session`. */
    method PrefillContext(cfg: Config, chance: Chance, context: seq<int>, initial: CacheState)
      returns (state: Result<CacheState, ModelError>, initialLen: nat, passes: seq<Pass>)
      modifies this
      ensures (Prefilled(state, initialLen, passes), Saved())
           == PrefillOnPrefix(model, cfg, chance, context, initial, old(Saved()))
    {
      if model.layout.cacheSpecs == [] || cfg.disableLiveCache {
        return Success(initial), 0, [];
      }
      var shared := CountSharedPrefix(context);
      if shared > 0 && shared == prevCacheLen && prevCacheState != map[] {
        initialLen := 0;
        state, passes := ReusePrefix(context);
      } else {
        state, initialLen, passes := PrefillAll(chance, context, initial);
      }
    }

    /** `run_prompt_on_session` */
    method RunPromptOnSession(cfg: Config, chance: Chance, prompt: string)
      returns (r: Result<string, ModelError>, passes: seq<Pass>)
      modifies this
      ensures var (run, saved) := GenerateOnSession(model, cfg, chance, prompt, old(Saved()));
              r == FinalText(model, run.result) && IsAnswer(model, run.result, r) && passes == run.passes && Saved() == saved
    {
      FinalTextIsAnswer(model, GenerateOnSession(model, cfg, chance, prompt, Saved()).0.result);
      hide IsAnswer;
      passes := [];
      var ids := model.encode(prompt);
      if ids.Failure? {
        return Failure(ids.error), passes;
      }
      var context := ids.value;
      if model.sharedBuffer.Some? {
        if context == [] {
          return Failure(EmptyPrompt), passes;
        }
        r := FinalText(model, model.sharedBuffer.value(context, cfg.maxNewTokens));
        return;
      }
      var first := FirstCacheState(model, cfg);
      if first.Failure? {
        return Failure(first.error), passes;
      }
      if context == [] {
        return Failure(EmptyPrompt), passes;
      }
      var state, initialLen;
      state, initialLen, passes := PrefillContext(cfg, chance, context, first.value);
      if state.Failure? {
        return Failure(state.error), passes;
      }
      var generated;
      generated, passes := DecodeLoop(model, cfg, chance, context, state.value, initialLen, passes);
      r := FinalText(model, generated);
    }
  }

  lemma {:induction false} SharedPrefixIs(a: seq<int>, b: seq<int>, n: nat)
    requires n <= |a| && n <= |b| && a[..n] == b[..n]
    requires n < |a| && n < |b| ==> a[n] != b[n]
    ensures SharedPrefix(a, b) == n
  {
    if n == 0 {
    } else {
      assert a[..n][0] == b[..n][0] && a[1..][..n - 1] == a[..n][1..] && b[1..][..n - 1] == b[..n][1..];
      SharedPrefixIs(a[1..], b[1..], n - 1);
    }
  }
}
