/** The coverage baseline on its way from one run to the next: exported with the raw observations,
    imported (cli/src/main.rs) and put into the arguments of tool calls (core_engine/src/agent.rs). */
module CoverageBaselines {
  import opened Wrappers
  import opened Text
  import opened Json
  import opened CaseInsensitive
  import opened Findings

  // ---- lists of strings in JSON ----

  function Shortened(s: string, maxChars: nat): string {
    if |s| <= maxChars then s else s[..maxChars]
  }

  function Taken(items: seq<Value>, maxItems: nat): seq<Value> {
    if |items| <= maxItems then items else items[..maxItems]
  }

  /** The strings that are not blank, trimmed and cut to length. */
  function Cleaned(items: seq<Value>, maxChars: nat): seq<string> {
    if items == [] then []
    else
      var item := items[|items| - 1];
      Cleaned(items[..|items| - 1], maxChars)
      + if item.Str? && Trim(item.text) != "" then [Shortened(Trim(item.text), maxChars)] else []
  }

  function StringList(value: Option<Value>, maxItems: nat, maxChars: nat): seq<string> {
    match value
    case Some(Array(items)) => SortedDistinct(Cleaned(Taken(items, maxItems), maxChars))
    case _ => []
  }

  /** `extract_string_array` and `parse_string_list`, which the source writes out twice. */
  method CollectStrings(value: Option<Value>, maxItems: nat, maxChars: nat) returns (collected: seq<string>)
    ensures collected == StringList(value, maxItems, maxChars)
  {
    collected := [];
    if value.None? || !value.value.Array? {
      return;
    }
    var items := Taken(value.value.items, maxItems);
    for i := 0 to |items|
      invariant collected == Cleaned(items[..i], maxChars)
    {
      assert items[..i + 1][..i] == items[..i];
      if !items[i].Str? {
        continue;
      }
      var trimmed := Trim(items[i].text);
      if trimmed == "" {
        continue;
      }
      collected := collected + [Shortened(trimmed, maxChars)];
    }
    assert items[..|items|] == items;
    collected := SortDedup(collected);
  }

  function ArrayOf(values: seq<string>): Value {
    Array(seq(|values|, i requires 0 <= i < |values| => Str(values[i])))
  }

  /** Within the limits, and no string blank. */
  predicate Fits(values: seq<string>, maxItems: nat, maxChars: nat) {
    |values| <= maxItems && forall v | v in values :: Trim(v) != "" && |Trim(v)| <= maxChars
  }

  function TrimmedAll(values: seq<string>): seq<string> {
    if values == [] then [] else TrimmedAll(values[..|values| - 1]) + [Trim(values[|values| - 1])]
  }

  lemma {:induction false} CleanedOfFitting(values: seq<string>, maxChars: nat)
    requires forall v | v in values :: Trim(v) != "" && |Trim(v)| <= maxChars
    ensures Cleaned(ArrayOf(values).items, maxChars) == TrimmedAll(values)
  {
    hide Trim;
    if values != [] {
      var n := |values| - 1;
      CleanedOfFitting(values[..n], maxChars);
      assert ArrayOf(values).items[..n] == ArrayOf(values[..n]).items;
      assert values[n] in values;
    }
  }

  lemma TrimTwice(s: string)
    ensures Trim(Trim(s)) == Trim(s) && Normalized(Trim(s)) == Normalized(s)
  {
    TrimOfTrimmed(Trim(s));
  }

  lemma {:induction false} TrimmedAllLookups(values: seq<string>, maxChars: nat)
    requires forall v | v in values :: Trim(v) != "" && |Trim(v)| <= maxChars
    ensures NormalizedAll(TrimmedAll(values)) == NormalizedAll(values) && |TrimmedAll(values)| == |values|
    ensures forall v | v in TrimmedAll(values) :: Trim(v) != "" && |Trim(v)| <= maxChars
  {
    hide Trim, Normalized;
    if values != [] {
      var n := |values| - 1;
      TrimmedAllLookups(values[..n], maxChars);
      TrimTwice(values[n]);
      assert values == values[..n] + [values[n]];
      NormalizedSnoc(values[..n], values[n]);
      NormalizedSnoc(TrimmedAll(values[..n]), Trim(values[n]));
    }
  }

  lemma NormalizedSnoc(values: seq<string>, value: string)
    ensures NormalizedAll(values + [value]) == NormalizedAll(values) + {Normalized(value)}
  {
    hide Normalized;
  }

  /** A list that fits loses no lookup value when it is read. */
  lemma StringListKeepsLookups(values: seq<string>, maxItems: nat, maxChars: nat)
    requires Fits(values, maxItems, maxChars)
    ensures var list := StringList(Some(ArrayOf(values)), maxItems, maxChars);
            NormalizedAll(list) == NormalizedAll(values) && Fits(list, maxItems, maxChars)
  {
    hide SortedDistinct, Cleaned, TrimmedAll, NormalizedAll, Trim;
    CleanedOfFitting(values, maxChars);
    TrimmedAllLookups(values, maxChars);
    SortedDistinctLookups(TrimmedAll(values));
  }

  // ---- import ----

  datatype CoverageBaseline = CoverageBaseline(
    entries: seq<string>,
    accounts: seq<string>,
    approved: seq<string>,
    bindings: seq<string>,
    processes: seq<string>)

  predicate IsEmpty(b: CoverageBaseline) {
    b.entries == [] && b.accounts == [] && b.approved == [] && b.bindings == [] && b.processes == []
  }

  /** The key within a section, else at the top level. */
  function InSection(observation: Value, section: string, key: string): Option<Value> {
    var outer := Get(observation, section);
    if outer.Some? && Get(outer.value, key).Some? then Get(outer.value, key) else Get(observation, key)
  }

  const MAX_ITEMS: nat := 512
  const MAX_ENTRY_CHARS: nat := 512
  const MAX_CHARS: nat := 256

  function Extracted(observation: Value): CoverageBaseline {
    var accounts := StringList(InSection(observation, "accounts", "baseline_privileged_accounts"), MAX_ITEMS, MAX_CHARS);
    var approved := StringList(InSection(observation, "accounts", "approved_privileged_accounts"), MAX_ITEMS, MAX_CHARS);
    CoverageBaseline(
      StringList(InSection(observation, "persistence", "baseline_entries"), MAX_ITEMS, MAX_ENTRY_CHARS),
      accounts,
      if approved == [] then accounts else approved,
      StringList(InSection(observation, "network", "baseline_exposed_bindings"), MAX_ITEMS, MAX_CHARS),
      StringList(InSection(observation, "network", "expected_processes"), MAX_ITEMS, MAX_CHARS))
  }

  const CAPTURE_TOOL := "capture_coverage_baseline"

  /** The raw observations of a run: those of its turns that have one, with the tool called. */
  function RawObservations(turns: seq<Turn>): seq<(Option<string>, Value)> {
    if turns == [] then []
    else
      var t := turns[|turns| - 1];
      RawObservations(turns[..|turns| - 1])
      + if t.observation.Some? then [(ToolOf(t), t.observation.value)] else []
  }

  /** The latest observation of the capture tool. */
  function LatestCapture(raw: seq<(Option<string>, Value)>): Option<Value> {
    if raw == [] then None
    else if raw[|raw| - 1].0 == Some(CAPTURE_TOOL) then Some(raw[|raw| - 1].1)
    else LatestCapture(raw[..|raw| - 1])
  }

  predicate IsCapture(t: Turn) {
    t.observation.Some? && ToolOf(t) == Some(CAPTURE_TOOL)
  }

  /** The export keeps the observation of the last turn that called the capture tool; what an earlier
      turn captured is out of reach. */
  lemma {:induction false} LatestCaptureIsLast(earlier: seq<Turn>, capture: Turn, later: seq<Turn>)
    requires IsCapture(capture) && forall t | t in later :: !IsCapture(t)
    ensures LatestCapture(RawObservations(earlier + [capture] + later)) == Some(capture.observation.value)
    decreases |later|
  {
    var turns := earlier + [capture] + later;
    if later == [] {
      assert turns[..|turns| - 1] == earlier && turns[|turns| - 1] == capture;
    } else {
      var n := |later| - 1;
      LatestCaptureIsLast(earlier, capture, later[..n]);
      assert turns[..|turns| - 1] == earlier + [capture] + later[..n];
      assert turns[|turns| - 1] == later[n] && later[n] in later;
      var raw := RawObservations(earlier + [capture] + later[..n]);
      assert RawObservations(turns) == raw || RawObservations(turns)[..|RawObservations(turns)| - 1] == raw;
    }
  }

  datatype LoadError = NoCapture | NothingReusable

  function LoadBaseline(raw: seq<(Option<string>, Value)>): Result<CoverageBaseline, LoadError> {
    var capture := LatestCapture(raw);
    if capture.None? then Failure(NoCapture)
    else if IsEmpty(Extracted(capture.value)) then Failure(NothingReusable)
    else Success(Extracted(capture.value))
  }

  // ---- injection ----

  /** An argument the call sets itself stays, and an empty list is not set. */
  function WithList(args: map<string, Value>, key: string, values: seq<string>): map<string, Value> {
    if key in args || values == [] then args else args[key := ArrayOf(values)]
  }

  function WithBaseline(baseline: Option<CoverageBaseline>, call: ToolCall): (r: ToolCall)
    ensures r.tool == call.tool
  {
    if baseline.None? then call
    else
      var b := baseline.value;
      var args := if call.args.Object? then call.args.fields else map[];
      var extended :=
        if call.tool == "inspect_persistence_locations" then WithList(args, "baseline_entries", b.entries)
        else if call.tool == "audit_account_changes" then
          WithList(WithList(args, "baseline_privileged_accounts", b.accounts), "approved_privileged_accounts", b.approved)
        else if call.tool == "correlate_process_network" then
          WithList(WithList(args, "baseline_exposed_bindings", b.bindings), "expected_processes", b.processes)
        else args;
      call.(args := Object(extended))
  }

  method SetStringListArg(args: map<string, Value>, key: string, values: seq<string>) returns (r: map<string, Value>)
    ensures r == WithList(args, key, values)
  {
    r := args;
    if key in args || |values| == 0 {
      return;
    }
    var list: seq<Value> := [];
    for i := 0 to |values|
      invariant list == ArrayOf(values[..i]).items
    {
      list := list + [Str(values[i])];
    }
    assert values[..|values|] == values;
    r := args[key := Array(list)];
  }

  method ApplyCoverageBaselineToCall(baseline: Option<CoverageBaseline>, call: ToolCall) returns (r: ToolCall)
    ensures r == WithBaseline(baseline, call)
  {
    r := call;
    if baseline.None? {
      return;
    }
    var b := baseline.value;
    if !r.args.Object? {
      r := r.(args := Object(map[]));
    }
    var args := r.args.fields;
    if r.tool == "inspect_persistence_locations" {
      args := SetStringListArg(args, "baseline_entries", b.entries);
    } else if r.tool == "audit_account_changes" {
      args := SetStringListArg(args, "baseline_privileged_accounts", b.accounts);
      args := SetStringListArg(args, "approved_privileged_accounts", b.approved);
    } else if r.tool == "correlate_process_network" {
      args := SetStringListArg(args, "baseline_exposed_bindings", b.bindings);
      args := SetStringListArg(args, "expected_processes", b.processes);
    }
    r := r.(args := Object(args));
  }

  /** The list of the baseline that a tool is given under a key. */
  function ListFor(b: CoverageBaseline, tool: string, key: string): seq<string> {
    match tool
    case "inspect_persistence_locations" => if key == "baseline_entries" then b.entries else []
    case "audit_account_changes" =>
      if key == "baseline_privileged_accounts" then b.accounts
      else if key == "approved_privileged_accounts" then b.approved
      else []
    case "correlate_process_network" =>
      if key == "baseline_exposed_bindings" then b.bindings
      else if key == "expected_processes" then b.processes
      else []
    case _ => []
  }

  function ArgumentsOf(call: ToolCall): map<string, Value> {
    if call.args.Object? then call.args.fields else map[]
  }

  lemma KeysDiffer()
    ensures "baseline_privileged_accounts" != "approved_privileged_accounts"
    ensures "baseline_exposed_bindings" != "expected_processes"
  {
    assert "baseline_privileged_accounts"[0] != "approved_privileged_accounts"[0];
    assert "baseline_exposed_bindings"[0] != "expected_processes"[0];
  }

  /** A key that the call sets keeps its value; one that it does not set appears exactly if the tool has a
      list for it that is not empty, with the strings of that list in order. */
  lemma InjectionExactly(b: CoverageBaseline, call: ToolCall, key: string)
    ensures var before, after, list := ArgumentsOf(call), WithBaseline(Some(b), call).args, ListFor(b, call.tool, key);
      && after.Object?
      && (key in after.fields <==> key in before || list != [])
      && (key in before ==> after.fields[key] == before[key])
      && (key !in before && list != [] ==>
            after.fields[key].Array? && |after.fields[key].items| == |list|
            && forall i :: 0 <= i < |list| ==> after.fields[key].items[i] == Str(list[i]))
    ensures WithBaseline(None, call) == call
  {
    KeysDiffer();
  }
}
