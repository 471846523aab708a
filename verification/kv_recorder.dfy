/** A runtime that records what it is fed: it meets the assumptions on prefix reuse, and with positions
    handed over to it a reused prefix changes the tokens. */
module KvRecorder {
  import opened Wrappers
  import opened TensorShapes
  import opened SessionLayouts
  import opened KvGeneration
  import opened KvReuse

  const OPEN: seq<int> := [1, -1]
  const INPUT_IDS := InputSpec("input_ids", Int64, OPEN)
  const POSITION_IDS := InputSpec("position_ids", Int64, OPEN)
  const USE_CACHE := InputSpec("use_cache_branch", Bool, [1])
  const PAST := CacheTensorSpec(InputSpec("past", Int64, OPEN), "present", 0)

  function RecorderLayout(positions: bool): SessionLayout {
    SessionLayout(INPUT_IDS, None, if positions then Some(POSITION_IDS) else None, None, None, Some(USE_CACHE), "logits", [PAST])
  }

  /** Tokens and positions in turn. */
  function Flat(pairs: seq<(int, int)>): seq<int> {
    seq(2 * |pairs|, i requires 0 <= i < 2 * |pairs| => if i % 2 == 0 then pairs[i / 2].0 else pairs[i / 2].1)
  }

  function Record(content: seq<int>): Tensor {
    Tensor([|content|], Int64, Ints(content))
  }

  function Recorded(pairs: seq<(int, int)>): CacheState {
    map["past" := Record(Flat(pairs))]
  }

  function IntsOf(inputs: seq<NamedTensor>, name: string): Option<seq<int>> {
    match Lookup(inputs, name)
    case Some(Tensor(_, _, Ints(ints))) => Some(ints)
    case _ => None
  }

  /** Without positions it counts on from its past. */
  function Pairs(ids: seq<int>, positions: Option<seq<int>>, past: nat): seq<(int, int)> {
    seq(|ids|, i requires 0 <= i < |ids| =>
      (ids[i], if positions.None? then past + i else if i < |positions.value| then positions.value[i] else 0))
  }

  /** The runtime: the past it is given and what it is fed now, as the new cache and as the logits. */
  function Remember(inputs: seq<NamedTensor>): Result<seq<NamedTensor>, ModelError> {
    var ids := IntsOf(inputs, "input_ids");
    if ids.None? then Failure(RuntimeFailed)
    else
      var past := IntsOf(inputs, "past");
      var before := if past.Some? then past.value else [];
      var record := Record(before + Flat(Pairs(ids.value, IntsOf(inputs, "position_ids"), |before| / 2)));
      Success([("logits", record), ("present", record)])
  }

  function Recorder(positions: bool, prompt: seq<int>): Model {
    Model(RecorderLayout(positions), inputs => Remember(inputs), text => Success(prompt), ids => Success("text"), {}, None)
  }

  // ---- the recorder meets the assumptions ----

  lemma RecordedIsInjective()
    ensures IsInjective(Recording())
  {
    forall p: seq<(int, int)>, q: seq<(int, int)> | Recorded(p) == Recorded(q) ensures p == q {
      assert Recorded(p)["past"] == Recorded(q)["past"];
      FlatIsInjective(p, q);
    }
  }

  lemma FlatIsInjective(p: seq<(int, int)>, q: seq<(int, int)>)
    requires Flat(p) == Flat(q)
    ensures p == q
  {
    assert |Flat(p)| == |Flat(q)|;
    forall i | 0 <= i < |p| ensures p[i] == q[i] {
      assert p[i].0 == Flat(p)[2 * i] && p[i].1 == Flat(p)[2 * i + 1];
      assert q[i].0 == Flat(q)[2 * i] && q[i].1 == Flat(q)[2 * i + 1];
    }
  }

  lemma FlatConcat(p: seq<(int, int)>, q: seq<(int, int)>)
    ensures Flat(p + q) == Flat(p) + Flat(q)
  {
    forall i | 0 <= i < 2 * |p + q| ensures Flat(p + q)[i] == (Flat(p) + Flat(q))[i] {
      if i >= 2 * |p| {
        assert (i - 2 * |p|) / 2 == i / 2 - |p| && (i - 2 * |p|) % 2 == i % 2;
      }
    }
  }

  /** Values for a batch of one reach the runtime as they are. */
  lemma OpenInput(name: string, values: seq<int>)
    requires 1 <= |values| <= USIZE_MAX
    ensures exists shape :: IntInput(InputSpec(name, Int64, OPEN), values) == Success([(name, Tensor(shape, Int64, Ints(values)))])
  {
    NothingCutOrPadded(OPEN, values);
    hide CheckedProduct, FilledIn, FitIntValues;
    assert IntInput(InputSpec(name, Int64, OPEN), values)
        == Success([(name, Tensor(FilledIn(OPEN, LastAxis(OPEN), |values|), Int64, Ints(values)))]);
  }

  lemma SwitchInput(enabled: bool)
    ensures exists t :: UseCacheInput(Some(USE_CACHE), enabled) == Success([("use_cache_branch", t)])
  {
    assert FilledIn([1], 0, 1) == [1];
    assert CheckedProduct([1], 1) == Success(1);
  }

  /** What the recorder is handed in one pass. */
  ghost predicate IsHanded(inputs: seq<NamedTensor>, positions: bool, ids: seq<int>, attentionLen: nat, branch: bool, state: CacheState) {
    && IntsOf(inputs, "input_ids") == Some(ids)
    && IntsOf(inputs, "position_ids")
       == (if positions then Some(PositionValues(RecorderLayout(positions), |ids|, attentionLen)) else None)
    && IntsOf(inputs, "past")
       == if branch && "past" in state && state["past"].content.Ints? then Some(state["past"].content.ints) else None
  }

  lemma Handed(positions: bool, ids: seq<int>, attentionLen: nat, branch: bool, state: CacheState)
    requires 1 <= |ids| <= USIZE_MAX && (branch ==> "past" in state)
    ensures var inputs := BuildModelInputs(RecorderLayout(positions), ids, attentionLen, branch, state);
            inputs.Success? && IsHanded(inputs.value, positions, ids, attentionLen, branch, state)
  {
    var layout := RecorderLayout(positions);
    var values := PositionValues(layout, |ids|, attentionLen);
    OpenInput("input_ids", ids);
    OpenInput("position_ids", values);
    SwitchInput(branch);
    hide PositionValues, IntInput, UseCacheInput;
    var shape :| IntInput(INPUT_IDS, ids) == Success([("input_ids", Tensor(shape, Int64, Ints(ids)))]);
    var shape' :| IntInput(POSITION_IDS, values) == Success([("position_ids", Tensor(shape', Int64, Ints(values)))]);
    var t :| UseCacheInput(Some(USE_CACHE), branch) == Success([("use_cache_branch", t)]);
    HandedList(positions, ids, attentionLen, branch, state, Tensor(shape, Int64, Ints(ids)), Tensor(shape', Int64, Ints(values)), t);
  }

  lemma HandedList(positions: bool, ids: seq<int>, attentionLen: nat, branch: bool, state: CacheState,
                   idsTensor: Tensor, positionsTensor: Tensor, t: Tensor)
    requires branch ==> "past" in state
    requires IntInput(INPUT_IDS, ids) == Success([("input_ids", idsTensor)]) && idsTensor.content == Ints(ids)
    requires var values := PositionValues(RecorderLayout(positions), |ids|, attentionLen);
             IntInput(POSITION_IDS, values) == Success([("position_ids", positionsTensor)]) && positionsTensor.content == Ints(values)
    requires UseCacheInput(Some(USE_CACHE), branch) == Success([("use_cache_branch", t)])
    ensures var inputs := BuildModelInputs(RecorderLayout(positions), ids, attentionLen, branch, state);
            inputs.Success? && IsHanded(inputs.value, positions, ids, attentionLen, branch, state)
  {
    hide PositionValues, IntInput, UseCacheInput;
    var layout := RecorderLayout(positions);
    var inputs := BuildModelInputs(layout, ids, attentionLen, branch, state);
    var middle: seq<NamedTensor> := if positions then [("position_ids", positionsTensor)] else [];
    var last: seq<NamedTensor> := if branch then [("past", state["past"])] else [];
    CacheList(state, branch);
    var none: seq<NamedTensor>, first: seq<NamedTensor>, switch: seq<NamedTensor> :=
      [], [("input_ids", idsTensor)], [("use_cache_branch", t)];
    assert OptionalIntInput(layout.positionIds, PositionValues(layout, |ids|, attentionLen)) == Success(middle);
    assert IncludesCache(layout, branch, state) == branch;
    assert inputs == Success(first + none + middle + none + none + switch + last);
    assert first + none + middle + none + none + switch + last == first + middle + switch + last;
    HandedLookups(idsTensor, middle, t, last);
  }

  lemma CacheList(state: CacheState, branch: bool)
    requires branch ==> "past" in state
    ensures branch ==> CacheTensorInputs([PAST], state) == Success([("past", state["past"])])
  {
    if branch {
      var one: seq<NamedTensor> := [("past", state["past"])];
      assert [PAST][1..] == [] && one + [] == one;
    }
  }

  lemma LookupFirst(input: NamedTensor, rest: seq<NamedTensor>, name: string)
    ensures Lookup([input] + rest, name) == if input.0 == name then Some(input.1) else Lookup(rest, name)
  {
    assert ([input] + rest)[1..] == rest;
  }

  lemma NamesDiffer()
    ensures "input_ids" != "position_ids" && "input_ids" != "past" && "position_ids" != "past"
    ensures "use_cache_branch" !in ["input_ids", "position_ids", "past"]
  {
    assert |"input_ids"| == 9 && |"position_ids"| == 12 && |"past"| == 4 && |"use_cache_branch"| == 16;
  }

  lemma HandedLookups(idsTensor: Tensor, middle: seq<NamedTensor>, t: Tensor, last: seq<NamedTensor>)
    requires |middle| <= 1 && (middle != [] ==> middle[0].0 == "position_ids")
    requires |last| <= 1 && (last != [] ==> last[0].0 == "past")
    ensures var inputs := [("input_ids", idsTensor)] + middle + [("use_cache_branch", t)] + last;
      && Lookup(inputs, "input_ids") == Some(idsTensor)
      && Lookup(inputs, "position_ids") == (if middle == [] then None else Some(middle[0].1))
      && Lookup(inputs, "past") == if last == [] then None else Some(last[0].1)
  {
    NamesDiffer();
    var switch: NamedTensor := ("use_cache_branch", t);
    var inputs := [("input_ids", idsTensor)] + middle + [switch] + last;
    assert inputs == [("input_ids", idsTensor)] + (middle + ([switch] + last));
    hide Lookup;
    forall name: string | name in ["input_ids", "position_ids", "past"]
      ensures Lookup(inputs, name) == if name == "input_ids" then Some(idsTensor) else Lookup(middle + ([switch] + last), name)
      ensures Lookup([switch] + last, name) == Lookup(last, name)
    {
      LookupFirst(("input_ids", idsTensor), middle + ([switch] + last), name);
      LookupFirst(switch, last, name);
    }
    InMiddle(middle, [switch] + last, "position_ids");
    InMiddle(middle, [switch] + last, "past");
    InMiddle(last, [], "position_ids");
    InMiddle(last, [], "past");
    assert last + [] == last;
  }

  lemma InMiddle(inputs: seq<NamedTensor>, rest: seq<NamedTensor>, name: string)
    requires |inputs| <= 1
    ensures Lookup(inputs + rest, name) == if inputs != [] && inputs[0].0 == name then Some(inputs[0].1) else Lookup(rest, name)
    ensures Lookup([], name) == None
  {
    if inputs == [] {
      assert inputs + rest == rest;
    } else {
      assert inputs == [inputs[0]];
      LookupFirst(inputs[0], rest, name);
    }
  }

  // ---- its passes ----

  lemma PairsAreFed(positions: bool, ids: seq<int>, past: nat)
    ensures Pairs(ids, if positions then Some(PositionValues(RecorderLayout(positions), |ids|, past + |ids|)) else None, past)
         == Fed(RecorderLayout(positions), ids, past)
  {
    var layout := RecorderLayout(positions);
    assert DeclaresPositions(layout) == positions;
    assert |PositionsOf(layout, |ids|, past)| == |ids|;
  }

  /** A pass on a recorded past yields the longer record, as logits and as cache. */
  lemma RecordsOn(positions: bool, prompt: seq<int>, prev: seq<(int, int)>, ids: seq<int>)
    requires 1 <= |ids| <= USIZE_MAX
    ensures var record := Record(Flat(prev + Fed(RecorderLayout(positions), ids, |prev|)));
            RunPass(Recorder(positions, prompt), Pass(ids, |prev| + |ids|, true, Recorded(prev)))
            == Success([("logits", record), ("present", record)])
  {
    var layout := RecorderLayout(positions);
    Handed(positions, ids, |prev| + |ids|, true, Recorded(prev));
    PairsAreFed(positions, ids, |prev|);
    FlatConcat(prev, Fed(layout, ids, |prev|));
    hide BuildModelInputs, Flat, Fed, PositionValues, Pairs;
    assert Recorded(prev)["past"].content == Ints(Flat(prev));
    FlatLength(prev);
  }

  lemma FlatLength(pairs: seq<(int, int)>)
    ensures |Flat(pairs)| / 2 == |pairs|
  {
  }

  lemma RecordsFirst(positions: bool, prompt: seq<int>, ids: seq<int>, start: CacheState)
    requires 1 <= |ids| <= USIZE_MAX
    ensures var record := Record(Flat(Fed(RecorderLayout(positions), ids, 0)));
            RunPass(Recorder(positions, prompt), Pass(ids, |ids|, false, start)) == Success([("logits", record), ("present", record)])
  {
    var layout := RecorderLayout(positions);
    Handed(positions, ids, |ids|, false, start);
    PairsAreFed(positions, ids, 0);
    var none: seq<int> := [];
    assert none + Flat(Fed(layout, ids, 0)) == Flat(Fed(layout, ids, 0));
    hide BuildModelInputs, Flat, Fed, PositionValues, Pairs;
  }

  lemma RecordIsCollected(positions: bool, prompt: seq<int>, p: Pass, pairs: seq<(int, int)>)
    requires RunPass(Recorder(positions, prompt), p)
          == Success([("logits", Record(Flat(pairs))), ("present", Record(Flat(pairs)))])
    ensures Prefill(Recorder(positions, prompt), p) == Success(Recorded(pairs))
    ensures forall chance: Chance, step: nat ::
      var token := chance.sample(Record(Flat(pairs)), step);
      DecodeStep(Recorder(positions, prompt), p, chance, step, true)
      == if token.Failure? then Failure(token.error) else Success(Decoded(token.value, Recorded(pairs)))
  {
    hide RunPass, Flat;
    var record := Record(Flat(pairs));
    var outputs: seq<NamedTensor> := [("logits", record), ("present", record)];
    assert outputs[1..] == [("present", record)];
    assert |"logits"| == 6 && |"present"| == 7;
    assert Lookup(outputs, "logits") == Some(record) && Lookup(outputs, "present") == Some(record);
    var next: CacheState := map[];
    assert [PAST][1..] == [];
    assert CollectCache([PAST], outputs, next) == Success(Recorded(pairs));
  }

  lemma RecorderPrefills(positions: bool, prompt: seq<int>, start: CacheState, ids: seq<int>)
    requires 0 < |ids| <= USIZE_MAX
    ensures UnpaddedPrefill(Recorder(positions, prompt), ids, start) == Success(Recorded(Fed(RecorderLayout(positions), ids, 0)))
  {
    hide Prefill, Fed, Recorded, RunPass, Flat, Recorder, RecorderLayout;
    RecordsFirst(positions, prompt, ids, start);
    RecordIsCollected(positions, prompt, Pass(ids, |ids|, false, start), Fed(RecorderLayout(positions), ids, 0));
  }

  lemma RecorderGoesOn(positions: bool, prompt: seq<int>, prev: seq<(int, int)>, ids: seq<int>)
    requires 0 < |ids| <= USIZE_MAX
    ensures Prefill(Recorder(positions, prompt), Pass(ids, |prev| + |ids|, true, Recorded(prev)))
         == Success(Recorded(prev + Fed(RecorderLayout(positions), ids, |prev|)))
  {
    hide Prefill, Fed, Recorded, RunPass, Flat, Recorder, RecorderLayout;
    RecordsOn(positions, prompt, prev, ids);
    RecordIsCollected(positions, prompt, Pass(ids, |prev| + |ids|, true, Recorded(prev)),
                      prev + Fed(RecorderLayout(positions), ids, |prev|));
  }

  function Recording(): seq<(int, int)> -> CacheState {
    pairs => Recorded(pairs)
  }

  lemma RecorderIs(positions: bool, prompt: seq<int>)
    ensures Recorder(positions, prompt).layout == RecorderLayout(positions)
    ensures forall pairs :: Recording()(pairs) == Recorded(pairs)
  {
  }

  lemma RecorderBuildsFirst(positions: bool, prompt: seq<int>, start: CacheState, most: nat)
    requires most <= USIZE_MAX
    ensures BuildsFirst(Recorder(positions, prompt), start, Recording(), most)
  {
    hide *;
    var m := Recorder(positions, prompt);
    RecorderIs(positions, prompt);
    forall ids: seq<int> | 0 < |ids| <= most
      ensures UnpaddedPrefill(m, ids, start) == Success(Recording()(Fed(m.layout, ids, 0)))
    {
      RecorderPrefills(positions, prompt, start, ids);
    }
    FirstFromAll(m, start, Recording(), most);
  }

  lemma FirstFromAll(m: Model, start: CacheState, built: seq<(int, int)> -> CacheState, most: nat)
    requires forall ids: seq<int> | 0 < |ids| <= most :: UnpaddedPrefill(m, ids, start) == Success(built(Fed(m.layout, ids, 0)))
    ensures BuildsFirst(m, start, built, most)
  {
    hide UnpaddedPrefill, Fed;
  }

  lemma RecorderBuildsOn(positions: bool, prompt: seq<int>, most: nat)
    requires most <= USIZE_MAX
    ensures BuildsOn(Recorder(positions, prompt), Recording(), most)
  {
    hide *;
    var m := Recorder(positions, prompt);
    RecorderIs(positions, prompt);
    forall prev: seq<(int, int)>, ids: seq<int> | prev != [] && ids != [] && |prev| + |ids| <= most
      ensures Prefill(m, Pass(ids, |prev| + |ids|, true, Recording()(prev)))
           == Success(Recording()(prev + Fed(m.layout, ids, |prev|)))
    {
      RecorderGoesOn(positions, prompt, prev, ids);
    }
    OnFromAll(m, Recording(), most);
  }

  lemma OnFromAll(m: Model, built: seq<(int, int)> -> CacheState, most: nat)
    requires forall prev: seq<(int, int)>, ids: seq<int> | prev != [] && ids != [] && |prev| + |ids| <= most ::
      Prefill(m, Pass(ids, |prev| + |ids|, true, built(prev))) == Success(built(prev + Fed(m.layout, ids, |prev|)))
    ensures BuildsOn(m, built, most)
  {
    hide Prefill, Fed;
  }

  /** For every prompt, with and without positions. */
  lemma RecorderRecordsFed(positions: bool, prompt: seq<int>, start: CacheState, most: nat)
    requires most <= USIZE_MAX
    ensures RecordsFed(Recorder(positions, prompt), start, Recording(), most)
  {
    hide IsInjective, BuildsFirst, BuildsOn, Recorder, Recording;
    RecordedIsInjective();
    RecorderBuildsFirst(positions, prompt, start, most);
    RecorderBuildsOn(positions, prompt, most);
  }

  // ---- a reused prefix that changes the tokens ----

  const PROMPT: seq<int> := [7, 8, 9]
  const ONE_TOKEN := Config(1, false, false)

  /** Samples the position of the second token fed. */
  function SecondPosition(): Chance {
    Chance((t: Tensor, step: nat) => IntAt(t, 3), (state: CacheState) => "past")
  }

  function IntAt(t: Tensor, i: nat): Result<int, ModelError> {
    if t.content.Ints? && i < |t.content.ints| then Success(t.content.ints[i]) else Failure(SamplingFailed)
  }

  /** What a call saves that was asked for the first token of the prompt only. */
  function SavedSeven(): Prefix {
    Prefix([7], Recorded(Fed(RecorderLayout(true), [7], 0)), 1, 0, 0)
  }

  lemma SavedSevenIsPrefill(start: CacheState)
    ensures SavedIsPrefill(Recorder(true, PROMPT), start, SavedSeven()) && CanReuse(SavedSeven(), PROMPT)
  {
    var m := Recorder(true, PROMPT);
    RecordsFirst(true, PROMPT, [7], start);
    RecordIsCollected(true, PROMPT, Pass([7], 1, false, start), Fed(m.layout, [7], 0));
    hide RunPass, Prefill, Fed;
    assert PROMPT[1..] == [8, 9];
    SharedPrefixIs(PROMPT, [7], 1);
    assert "past" in SavedSeven().state;
  }

  lemma FirstStateOfRecorder()
    ensures FirstCacheState(Recorder(true, PROMPT), ONE_TOKEN).Success?
  {
    assert FilledIn(OPEN, 0, 1) == [1, 1];
    assert [1, 1][1..] == [1] && [1][1..] == [];
    assert CheckedProduct([1, 1], 1) == Success(1);
    assert [PAST][1..] == [];
  }

  lemma OneStep(pairs: seq<(int, int)>)
    requires |pairs| == 3
    ensures DecodeStep(Recorder(true, PROMPT), DecodePass(PROMPT, Recorded(pairs), 0, true), SecondPosition(), 0, true)
         == Success(Decoded(pairs[1].1, Recorded(pairs + [(9, 2)])))
  {
    var more := pairs + [(9, 2)];
    assert Flat(more)[3] == pairs[1].1;
    assert SecondPosition().sample(Record(Flat(more)), 0) == Success(pairs[1].1);
    hide RunPass, Flat, Recorded, DecodeStep, Recorder, DecodePass, SecondPosition;
    DecodeFeedsLast(pairs);
    RecordIsCollected(true, PROMPT, DecodePass(PROMPT, Recorded(pairs), 0, true), more);
  }

  /** The one decode pass and its token. */
  lemma OneToken(pairs: seq<(int, int)>, passes: seq<Pass>)
    requires |pairs| == 3
    ensures DecodeFrom(Recorder(true, PROMPT), ONE_TOKEN, SecondPosition(), PROMPT, [], Recorded(pairs), 0, passes).result
         == Success([pairs[1].1])
  {
    OneStep(pairs);
    var none: seq<int> := [];
    assert CacheEnabled(Recorder(true, PROMPT), ONE_TOKEN) && Recorder(true, PROMPT).stopIds == {};
    assert none + [pairs[1].1] == [pairs[1].1];
    hide RunPass, Recorded, DecodeStep, Recorder, DecodePass, SecondPosition, CacheEnabled;
  }

  /** It feeds the last prompt token again, at the position of its first feeding. */
  lemma DecodeFeedsLast(pairs: seq<(int, int)>)
    requires |pairs| == 3
    ensures var record := Record(Flat(pairs + [(9, 2)]));
      RunPass(Recorder(true, PROMPT), DecodePass(PROMPT, Recorded(pairs), 0, true)) == Success([("logits", record), ("present", record)])
  {
    Handed(true, [9], 3, true, Recorded(pairs));
    FlatConcat(pairs, [(9, 2)]);
    FlatLength(pairs);
    var layout := RecorderLayout(true);
    assert PositionValues(layout, 1, 3) == [2];
    assert Pairs([9], Some([2]), 3) == [(9, 2)];
    hide BuildModelInputs, Flat, PositionValues, Pairs;
    assert Recorded(pairs)["past"].content == Ints(Flat(pairs));
  }

  /** Prompt, layout and saved prefix for which a reused prefix generates another token than a fresh
      session: the suffix of two tokens is fed with the positions 0 and 1. */
  lemma ReuseCanChangeTokens()
    ensures GenerateOnSession(Recorder(true, PROMPT), ONE_TOKEN, SecondPosition(), "", SavedSeven()).0.result == Success([0])
    ensures Generate(Recorder(true, PROMPT), ONE_TOKEN, SecondPosition(), "").result == Success([1])
  {
    var m := Recorder(true, PROMPT);
    FirstStateOfRecorder();
    var start := FirstCacheState(m, ONE_TOKEN).value;
    SavedSevenIsPrefill(start);
    var whole, seven, suffix := Fed(m.layout, PROMPT, 0), Fed(m.layout, [7], 0), Fed(m.layout, [8, 9], 1);
    assert whole[1].1 == 1 && (seven + suffix)[1] == suffix[0] && suffix[0].1 == 0;
    RecordsFirst(true, PROMPT, PROMPT, start);
    RecordIsCollected(true, PROMPT, Pass(PROMPT, 3, false, start), whole);
    RecordsOn(true, PROMPT, seven, [8, 9]);
    RecordIsCollected(true, PROMPT, Pass([8, 9], 3, true, Recorded(seven)), seven + suffix);
    assert PROMPT[1..] == [8, 9];
    hide RunPass, Prefill, Fed, Recorded, DecodeFrom, FirstCacheState, CanReuse, SharedPrefix;
    assert InitialCacheLen(m, start, SecondPosition()) == 0;
    var reused, full := ReusedPrefix(m, PROMPT, SavedSeven()).0, FullPrefill(m, SecondPosition(), PROMPT, start);
    OneToken(seven + suffix, reused.passes);
    OneToken(whole, full.passes);
  }
}
