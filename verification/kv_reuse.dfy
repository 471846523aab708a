/** When a call that starts from a saved cache does what a fresh call does. The runtime is taken to build
    its cache from the tokens it is fed and from their positions; the program chooses the positions. */
module KvReuse {
  import opened Wrappers
  import opened TensorShapes
  import opened SessionLayouts
  import opened KvGeneration
  import opened KvTheorems

  // ---- positions ----

  predicate DeclaresPositions(layout: SessionLayout) {
    layout.positionIds.Some? || layout.cachePosition.Some?
  }

  /** The positions a runtime works with: those the program hands over, else it counts on from its past. */
  function PositionsOf(layout: SessionLayout, count: nat, past: nat): (positions: seq<int>)
    ensures |positions| == count
  {
    if DeclaresPositions(layout) then PositionValues(layout, count, past + count) else seq(count, i => past + i)
  }

  /** The tokens a pass feeds, with their positions. */
  function Fed(layout: SessionLayout, ids: seq<int>, past: nat): (pairs: seq<(int, int)>)
    ensures |pairs| == |ids|
  {
    var positions := PositionsOf(layout, |ids|, past);
    seq(|ids|, i requires 0 <= i < |ids| => (ids[i], positions[i]))
  }

  /** Positions handed over with a suffix continue those of the prefix exactly if it is a single token. */
  lemma PositionsContinueExactly(layout: SessionLayout, n: nat, count: nat)
    requires layout.cacheSpecs != [] && 0 < n < count
    ensures PositionValues(layout, count - n, count) == PositionValues(layout, count, count)[n..] <==> n + 1 == count
  {
    var suffix, whole := PositionValues(layout, count - n, count), PositionValues(layout, count, count);
    assert whole[n..][0] == n;
    if n + 1 == count {
      assert suffix == [n] && |whole[n..]| == 1;
    } else {
      assert suffix[0] == 0;
    }
  }

  /** The same of the tokens with their positions. */
  lemma FedInTwoExactly(layout: SessionLayout, ids: seq<int>, n: nat)
    requires layout.cacheSpecs != [] && 0 < n < |ids|
    ensures Fed(layout, ids[..n], 0) + Fed(layout, ids[n..], n) == Fed(layout, ids, 0)
      <==> !DeclaresPositions(layout) || n + 1 == |ids|
  {
    var one, two := Fed(layout, ids, 0), Fed(layout, ids[..n], 0) + Fed(layout, ids[n..], n);
    assert two[n] == Fed(layout, ids[n..], n)[0];
    if !DeclaresPositions(layout) || n + 1 == |ids| {
      forall i | 0 <= i < |ids| ensures one[i] == two[i] {
        if i >= n {
          assert two[i] == Fed(layout, ids[n..], n)[i - n];
        }
      }
      assert one == two;
    } else {
      assert one[n].1 == n && two[n].1 == 0;
    }
  }

  // ---- what is taken of the runtime ----

  function UnpaddedPrefill(m: Model, ids: seq<int>, start: CacheState): Result<CacheState, ModelError> {
    Prefill(m, Pass(ids, |ids|, false, start))
  }

  ghost predicate IsInjective(built: seq<(int, int)> -> CacheState) {
    forall p, q :: built(p) == built(q) ==> p == q
  }

  /** A first pass builds the cache of what it feeds. */
  ghost predicate BuildsFirst(m: Model, start: CacheState, built: seq<(int, int)> -> CacheState, most: nat) {
    forall ids: seq<int> :: 0 < |ids| <= most ==> UnpaddedPrefill(m, ids, start) == Success(built(Fed(m.layout, ids, 0)))
  }

  /** A pass on a cache adds what it feeds. */
  ghost predicate BuildsOn(m: Model, built: seq<(int, int)> -> CacheState, most: nat) {
    forall prev: seq<(int, int)>, ids: seq<int> :: prev != [] && ids != [] && |prev| + |ids| <= most ==>
      Prefill(m, Pass(ids, |prev| + |ids|, true, built(prev))) == Success(built(prev + Fed(m.layout, ids, |prev|)))
  }

  /** Up to `most` tokens the cache is a faithful record of the tokens fed and of their positions. Nothing
      is said about how the program feeds them. */
  ghost predicate RecordsFed(m: Model, start: CacheState, built: seq<(int, int)> -> CacheState, most: nat) {
    IsInjective(built) && BuildsFirst(m, start, built, most) && BuildsOn(m, built, most)
  }

  // ---- reuse against full prefill ----

  /** The saved cache is the prefill of all the saved ids. */
  ghost predicate SavedIsPrefill(m: Model, start: CacheState, pre: Prefix) {
    pre.len == |pre.ids| && UnpaddedPrefill(m, pre.ids, start) == Success(pre.state)
  }

  lemma PrefixIsShared(context: seq<int>, pre: Prefix)
    requires CanReuse(pre, context) && pre.len == |pre.ids|
    ensures 0 < pre.len <= |context| && context[..pre.len] == pre.ids
    ensures context[pre.len..] == [] ==> context == pre.ids
  {
    assert context[..pre.len] == pre.ids[..pre.len] == pre.ids;
  }

  /** Neither positions to hand over, nor a suffix of several tokens that would get the wrong ones. */
  predicate PositionsStayRight(layout: SessionLayout, context: seq<int>, pre: Prefix) {
    !DeclaresPositions(layout) || |context| <= pre.len + 1
  }

  lemma FullBuilds(m: Model, context: seq<int>, start: CacheState, built: seq<(int, int)> -> CacheState)
    requires BuildsFirst(m, start, built, |context|) && context != []
    ensures UnpaddedPrefill(m, context, start) == Success(built(Fed(m.layout, context, 0)))
  {
    hide UnpaddedPrefill, Fed;
  }

  lemma SuffixBuilds(m: Model, prev: seq<(int, int)>, suffix: seq<int>, built: seq<(int, int)> -> CacheState, most: nat)
    requires BuildsOn(m, built, most) && prev != [] && suffix != [] && |prev| + |suffix| <= most
    ensures Prefill(m, Pass(suffix, |prev| + |suffix|, true, built(prev))) == Success(built(prev + Fed(m.layout, suffix, |prev|)))
  {
    hide Prefill, Fed;
  }

  lemma SavedBuilds(m: Model, start: CacheState, pre: Prefix, built: seq<(int, int)> -> CacheState, most: nat)
    requires SavedIsPrefill(m, start, pre) && BuildsFirst(m, start, built, most) && 0 < pre.len <= most
    ensures pre.state == built(Fed(m.layout, pre.ids, 0))
  {
    hide Prefill, Fed;
    assert UnpaddedPrefill(m, pre.ids, start) == Success(built(Fed(m.layout, pre.ids, 0)));
  }

  /** Prefilling the suffix on a saved prefill builds the cache of a full prefill, if and only if the model
      is handed no positions or the suffix has at most one token. */
  lemma ReuseIsFullPrefillExactly(m: Model, chance: Chance, context: seq<int>, start: CacheState, pre: Prefix,
                                  built: seq<(int, int)> -> CacheState)
    requires CanReuse(pre, context) && SavedIsPrefill(m, start, pre)
    requires RecordsFed(m, start, built, |context|) && InitialCacheLen(m, start, chance) == 0 && m.layout.cacheSpecs != []
    ensures var reused, full := ReusedPrefix(m, context, pre).0, FullPrefill(m, chance, context, start);
      && reused.state.Success? && full.state.Success? && reused.initialLen == full.initialLen
      && (reused.state == full.state <==> PositionsStayRight(m.layout, context, pre))
  {
    hide Prefill, InitialCacheLen, SharedPrefix, Fed, BuildsFirst, BuildsOn;
    PrefixIsShared(context, pre);
    assert FullPrefillPass(m, context, start, chance) == Pass(context, |context|, false, start);
    FullBuilds(m, context, start, built);
    SavedBuilds(m, start, pre, built, |context|);
    var n := pre.len;
    if context[n..] != [] {
      SuffixBuilds(m, Fed(m.layout, pre.ids, 0), context[n..], built, |context|);
      FedInTwoExactly(m.layout, context, n);
    }
  }

  /** A call that reuses a good prefix generates what a fresh session generates, unless the model is handed
      positions and the suffix has several tokens. */
  lemma ReuseKeepsTokens(m: Model, cfg: Config, chance: Chance, prompt: string, pre: Prefix,
                         built: seq<(int, int)> -> CacheState)
    requires m.sharedBuffer.None? && FirstCacheState(m, cfg).Success?
    requires var start := FirstCacheState(m, cfg).value;
             && InitialCacheLen(m, start, chance) == 0
             && (m.encode(prompt).Success? ==>
                   var ids := m.encode(prompt).value;
                   RecordsFed(m, start, built, |ids|) && (CanReuse(pre, ids) ==> PositionsStayRight(m.layout, ids, pre)))
             && (pre.state != map[] ==> SavedIsPrefill(m, start, pre))
    ensures GenerateOnSession(m, cfg, chance, prompt, pre).0.result == Generate(m, cfg, chance, prompt).result
  {
    hide Prefill, RecordsFed, InitialCacheLen, SharedPrefix, ReusedPrefix, FullPrefill, SavedIsPrefill, DecodeFrom,
         InitializeCacheState, PositionsStayRight;
    var ids := m.encode(prompt);
    var start := FirstCacheState(m, cfg).value;
    if ids.Success? && ids.value != [] && CacheEnabled(m, cfg) && CanReuse(pre, ids.value) {
      ReuseIsFullPrefillExactly(m, chance, ids.value, start, pre, built);
      var reused, full := ReusedPrefix(m, ids.value, pre).0, FullPrefill(m, chance, ids.value, start);
      DecodeIgnoresPasses(m, cfg, chance, ids.value, [], full.state.value, full.initialLen, reused.passes, full.passes);
    }
  }
}
