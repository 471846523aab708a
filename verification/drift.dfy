/** Capturing a coverage baseline and comparing later snapshots with it (cyber_tools/src/lib.rs). */
module Drift {
  import opened Wrappers
  import opened Text
  import opened Json
  import opened CaseInsensitive
  import opened Findings
  import opened CoverageBaselines

  datatype Listener = Listener(address: string, process: Option<string>, exposed: bool)

  /** What the host collectors report, up to their own limits. */
  datatype Snapshot = Snapshot(entries: seq<string>, accounts: seq<string>, listeners: seq<Listener>)

  // ---- capture ----

  function ExposedOnly(listeners: seq<Listener>): seq<Listener> {
    if listeners == [] then []
    else ExposedOnly(listeners[..|listeners| - 1])
         + if listeners[|listeners| - 1].exposed then [listeners[|listeners| - 1]] else []
  }

  function Addresses(listeners: seq<Listener>): seq<string> {
    seq(|listeners|, i requires 0 <= i < |listeners| => listeners[i].address)
  }

  function Processes(listeners: seq<Listener>): seq<string> {
    if listeners == [] then []
    else
      var l := listeners[|listeners| - 1];
      Processes(listeners[..|listeners| - 1]) + if l.process.Some? then [l.process.value] else []
  }

  /** The arrays of the observation; its counts are left out. */
  function Captured(s: Snapshot): Value {
    var accounts := SortedDistinct(s.accounts);
    var exposed := ExposedOnly(s.listeners);
    Object(map[
      "baseline_version" := Str("coverage-v1"),
      "persistence" := Object(map["baseline_entries" := ArrayOf(SortedDistinct(s.entries))]),
      "accounts" := Object(map["baseline_privileged_accounts" := ArrayOf(accounts),
                               "approved_privileged_accounts" := ArrayOf(SortedDistinct(accounts))]),
      "network" := Object(map["baseline_exposed_bindings" := ArrayOf(SortedDistinct(Addresses(exposed))),
                              "expected_processes" := ArrayOf(SortedDistinct(Processes(exposed)))])])
  }

  // ---- comparison ----

  function Lookups(args: Value, key: string, maxChars: nat): set<string> {
    NormalizedAll(StringList(Get(args, key), MAX_ITEMS, maxChars))
  }

  /** The values that are not known, as they stand. */
  function Unknown(values: seq<string>, known: set<string>): seq<string> {
    if values == [] then []
    else
      var v := values[|values| - 1];
      Unknown(values[..|values| - 1], known) + if Normalized(v) !in known then [v] else []
  }

  /** With nothing to compare with, nothing is reported. */
  function Reported(values: seq<string>, known: set<string>): seq<string> {
    if known == {} then [] else SortedDistinct(Unknown(values, known))
  }

  method UnknownOf(values: seq<string>, known: set<string>) returns (r: seq<string>)
    ensures r == SortedDistinct(Unknown(values, known))
  {
    hide Normalized, SortedDistinct;
    r := [];
    for i := 0 to |values|
      invariant r == Unknown(values[..i], known)
    {
      assert values[..i + 1][..i] == values[..i];
      if Normalized(values[i]) !in known {
        r := r + [values[i]];
      }
    }
    assert values[..|values|] == values;
    r := SortDedup(r);
  }

  method ReportUnknown(values: seq<string>, known: set<string>) returns (r: seq<string>)
    ensures r == Reported(values, known)
  {
    r := [];
    if known != {} {
      r := UnknownOf(values, known);
    }
  }

  /** `inspect_persistence_locations`: the entries that are new. */
  function NewEntries(args: Value, now: Snapshot): seq<string> {
    Reported(now.entries, Lookups(args, "baseline_entries", MAX_ENTRY_CHARS))
  }

  datatype AccountDrift = AccountDrift(newly: seq<string>, removed: seq<string>, unapproved: seq<string>)

  /** `audit_account_changes` */
  function AccountChanges(args: Value, now: Snapshot): AccountDrift {
    var baseline := StringList(Get(args, "baseline_privileged_accounts"), MAX_ITEMS, MAX_CHARS);
    AccountDrift(
      Reported(now.accounts, NormalizedAll(baseline)),
      if baseline == [] then [] else SortedDistinct(Unknown(baseline, NormalizedAll(now.accounts))),
      Reported(now.accounts, Lookups(args, "approved_privileged_accounts", MAX_CHARS)))
  }

  method AuditAccounts(args: Value, now: Snapshot) returns (drift: AccountDrift)
    ensures drift == AccountChanges(args, now)
  {
    var baseline := CollectStrings(Get(args, "baseline_privileged_accounts"), MAX_ITEMS, MAX_CHARS);
    var approved := CollectStrings(Get(args, "approved_privileged_accounts"), MAX_ITEMS, MAX_CHARS);
    var newly := ReportUnknown(now.accounts, NormalizedAll(baseline));
    var unapproved := ReportUnknown(now.accounts, NormalizedAll(approved));
    var removed: seq<string> := [];
    if NormalizedAll(baseline) != {} {
      removed := UnknownOf(baseline, NormalizedAll(now.accounts));
    } else {
      NothingNormalized(baseline);
    }
    drift := AccountDrift(newly, removed, unapproved);
  }

  lemma NothingNormalized(values: seq<string>)
    ensures NormalizedAll(values) == {} <==> values == []
  {
    if values != [] {
      assert Normalized(values[0]) in NormalizedAll(values);
    }
  }

  datatype NetworkDrift = NetworkDrift(unknown: seq<Listener>, newBindings: seq<string>)

  /** Exposed, and its process has no name or one that is not expected. */
  predicate IsUnexpected(l: Listener, expected: set<string>) {
    l.exposed && (l.process.None? || Normalized(l.process.value) !in expected)
  }

  function Unexpected(listeners: seq<Listener>, expected: set<string>): seq<Listener> {
    if listeners == [] then []
    else
      var l := listeners[|listeners| - 1];
      Unexpected(listeners[..|listeners| - 1], expected) + if IsUnexpected(l, expected) then [l] else []
  }

  /** `correlate_process_network` */
  function NetworkChanges(args: Value, now: Snapshot): NetworkDrift {
    var expected := Lookups(args, "expected_processes", MAX_CHARS);
    NetworkDrift(
      if expected == {} then [] else Unexpected(now.listeners, expected),
      Reported(Addresses(ExposedOnly(now.listeners)), Lookups(args, "baseline_exposed_bindings", MAX_CHARS)))
  }

  // ---- what a comparison reports ----

  lemma {:induction false} UnknownMembers(values: seq<string>, known: set<string>)
    ensures forall v :: v in Unknown(values, known) <==> v in values && Normalized(v) !in known
  {
    hide Normalized;
    if values != [] {
      var n := |values| - 1;
      UnknownMembers(values[..n], known);
      assert values == values[..n] + [values[n]];
    }
  }

  /** With a baseline the report is the difference without regard to case: in ascending order, one
      spelling, the first, of each value the baseline does not have. */
  lemma ReportIsDifference(values: seq<string>, known: set<string>)
    requires known != {}
    ensures var report := Reported(values, known);
            && StrictlyAscending(report)
            && (forall v | v in report :: v in values && Normalized(v) !in known && IsFirstOfCase(Unknown(values, known), v))
            && (forall v | v in values && Normalized(v) !in known :: exists w :: w in report && Lower(w) == Lower(v))
  {
    var unknown := Unknown(values, known);
    UnknownMembers(values, known);
    SortedDistinctIs(unknown);
    SortedDistinctLookups(unknown);
  }

  lemma NothingReportedExactly(values: seq<string>, known: set<string>)
    ensures Reported(values, known) == [] <==> known == {} || forall v | v in values :: Normalized(v) in known
  {
    hide Normalized, SortedDistinct;
    if known != {} {
      var report := Reported(values, known);
      ReportIsDifference(values, known);
      hide Reported;
      if report != [] {
        assert report[0] in report;
      }
    }
  }

  // ---- from one run to the next ----

  /** Every captured array is within the limits. */
  predicate FitsLimits(s: Snapshot) {
    && Fits(SortedDistinct(s.entries), MAX_ITEMS, MAX_ENTRY_CHARS)
    && Fits(SortedDistinct(s.accounts), MAX_ITEMS, MAX_CHARS)
    && Fits(SortedDistinct(Addresses(ExposedOnly(s.listeners))), MAX_ITEMS, MAX_CHARS)
    && Fits(SortedDistinct(Processes(ExposedOnly(s.listeners))), MAX_ITEMS, MAX_CHARS)
  }

  lemma SortedStillFits(values: seq<string>, maxItems: nat, maxChars: nat)
    requires Fits(values, maxItems, maxChars)
    ensures Fits(SortedDistinct(values), maxItems, maxChars)
  {
    hide SortedDistinct, Trim;
    SortedDistinctLookups(values);
  }

  /** From the collector to the imported baseline. */
  lemma CaptureKeepsLookups(values: seq<string>, maxItems: nat, maxChars: nat)
    requires Fits(SortedDistinct(values), maxItems, maxChars)
    ensures var list := StringList(Some(ArrayOf(SortedDistinct(values))), maxItems, maxChars);
            NormalizedAll(list) == NormalizedAll(values) && Fits(list, maxItems, maxChars)
            && (list == [] <==> values == [])
  {
    hide SortedDistinct, Trim, StringList, ArrayOf, Fits;
    SortedDistinctLookups(values);
    StringListKeepsLookups(SortedDistinct(values), maxItems, maxChars);
    NothingNormalized(values);
    NothingNormalized(StringList(Some(ArrayOf(SortedDistinct(values))), maxItems, maxChars));
  }

  lemma ExtractedFromCapture(s: Snapshot)
    ensures var b, exposed := Extracted(Captured(s)), ExposedOnly(s.listeners);
            var accounts := StringList(Some(ArrayOf(SortedDistinct(s.accounts))), MAX_ITEMS, MAX_CHARS);
            var approved := StringList(Some(ArrayOf(SortedDistinct(SortedDistinct(s.accounts)))), MAX_ITEMS, MAX_CHARS);
            && b.entries == StringList(Some(ArrayOf(SortedDistinct(s.entries))), MAX_ITEMS, MAX_ENTRY_CHARS)
            && b.accounts == accounts && b.approved == (if approved == [] then accounts else approved)
            && b.bindings == StringList(Some(ArrayOf(SortedDistinct(Addresses(exposed)))), MAX_ITEMS, MAX_CHARS)
            && b.processes == StringList(Some(ArrayOf(SortedDistinct(Processes(exposed)))), MAX_ITEMS, MAX_CHARS)
  {
    hide SortedDistinct, StringList, ArrayOf, Addresses, Processes, ExposedOnly;
  }

  /** The imported lists have the lookup values of the snapshot and fit again. */
  ghost predicate IsImportOf(b: CoverageBaseline, s: Snapshot) {
    var exposed := ExposedOnly(s.listeners);
    && NormalizedAll(b.entries) == NormalizedAll(s.entries) && Fits(b.entries, MAX_ITEMS, MAX_ENTRY_CHARS)
    && NormalizedAll(b.accounts) == NormalizedAll(s.accounts) && Fits(b.accounts, MAX_ITEMS, MAX_CHARS)
    && NormalizedAll(b.approved) == NormalizedAll(s.accounts) && Fits(b.approved, MAX_ITEMS, MAX_CHARS)
    && NormalizedAll(b.bindings) == NormalizedAll(Addresses(exposed)) && Fits(b.bindings, MAX_ITEMS, MAX_CHARS)
    && NormalizedAll(b.processes) == NormalizedAll(Processes(exposed)) && Fits(b.processes, MAX_ITEMS, MAX_CHARS)
  }

  lemma SameAccounts(accounts: seq<string>)
    ensures NormalizedAll(SortedDistinct(accounts)) == NormalizedAll(accounts)
  {
    hide SortedDistinct;
    SortedDistinctLookups(accounts);
  }

  lemma CaptureIsImported(s: Snapshot)
    requires FitsLimits(s)
    ensures IsImportOf(Extracted(Captured(s)), s)
  {
    var exposed := ExposedOnly(s.listeners);
    ExtractedFromCapture(s);
    hide SortedDistinct, StringList, ArrayOf, Addresses, Processes, ExposedOnly, Extracted, Captured, Fits, NormalizedAll;
    CaptureKeepsLookups(s.entries, MAX_ITEMS, MAX_ENTRY_CHARS);
    CaptureKeepsLookups(s.accounts, MAX_ITEMS, MAX_CHARS);
    SortedStillFits(SortedDistinct(s.accounts), MAX_ITEMS, MAX_CHARS);
    SameAccounts(s.accounts);
    CaptureKeepsLookups(SortedDistinct(s.accounts), MAX_ITEMS, MAX_CHARS);
    CaptureKeepsLookups(Addresses(exposed), MAX_ITEMS, MAX_CHARS);
    CaptureKeepsLookups(Processes(exposed), MAX_ITEMS, MAX_CHARS);
  }

  /** A list put into an argument that was not set is read back with the same lookup values. */
  lemma InjectedList(args: map<string, Value>, key: string, values: seq<string>, maxChars: nat)
    requires key !in args && Fits(values, MAX_ITEMS, maxChars)
    ensures Lookups(Object(WithList(args, key, values)), key, maxChars) == NormalizedAll(values)
  {
    hide StringList, Fits;
    StringListKeepsLookups(values, MAX_ITEMS, maxChars);
    NothingListed(MAX_ITEMS, maxChars);
  }

  lemma NothingListed(maxItems: nat, maxChars: nat)
    ensures StringList(None, maxItems, maxChars) == []
  {
  }

  predicate SetsNothing(call: ToolCall) {
    call.args.Object? ==>
      && "baseline_entries" !in call.args.fields && "baseline_privileged_accounts" !in call.args.fields
      && "approved_privileged_accounts" !in call.args.fields && "baseline_exposed_bindings" !in call.args.fields
      && "expected_processes" !in call.args.fields
  }

  /** What the three tools report after a baseline was put into their calls. */
  lemma PersistenceLookups(b: CoverageBaseline, call: ToolCall)
    requires call.tool == "inspect_persistence_locations" && SetsNothing(call) && Fits(b.entries, MAX_ITEMS, MAX_ENTRY_CHARS)
    ensures Lookups(WithBaseline(Some(b), call).args, "baseline_entries", MAX_ENTRY_CHARS) == NormalizedAll(b.entries)
  {
    hide Lookups, WithList, Fits;
    InjectedList(if call.args.Object? then call.args.fields else map[], "baseline_entries", b.entries, MAX_ENTRY_CHARS);
  }

  lemma TwoLists(args: map<string, Value>, k: string, v: seq<string>, l: string, w: seq<string>)
    requires k != l && k !in args && l !in args && Fits(v, MAX_ITEMS, MAX_CHARS) && Fits(w, MAX_ITEMS, MAX_CHARS)
    ensures var all := Object(WithList(WithList(args, k, v), l, w));
            Lookups(all, k, MAX_CHARS) == NormalizedAll(v) && Lookups(all, l, MAX_CHARS) == NormalizedAll(w)
  {
    hide Fits, StringList, NormalizedAll;
    InjectedList(args, k, v, MAX_CHARS);
    InjectedList(WithList(args, k, v), l, w, MAX_CHARS);
  }

  lemma AccountLookups(b: CoverageBaseline, call: ToolCall)
    requires call.tool == "audit_account_changes" && SetsNothing(call)
    requires Fits(b.accounts, MAX_ITEMS, MAX_CHARS) && Fits(b.approved, MAX_ITEMS, MAX_CHARS)
    ensures var args := WithBaseline(Some(b), call).args;
            && Lookups(args, "baseline_privileged_accounts", MAX_CHARS) == NormalizedAll(b.accounts)
            && Lookups(args, "approved_privileged_accounts", MAX_CHARS) == NormalizedAll(b.approved)
  {
    hide Lookups, WithList, Fits;
    TwoLists(if call.args.Object? then call.args.fields else map[],
             "baseline_privileged_accounts", b.accounts, "approved_privileged_accounts", b.approved);
  }

  lemma NetworkLookups(b: CoverageBaseline, call: ToolCall)
    requires call.tool == "correlate_process_network" && SetsNothing(call)
    requires Fits(b.bindings, MAX_ITEMS, MAX_CHARS) && Fits(b.processes, MAX_ITEMS, MAX_CHARS)
    ensures var args := WithBaseline(Some(b), call).args;
            && Lookups(args, "baseline_exposed_bindings", MAX_CHARS) == NormalizedAll(b.bindings)
            && Lookups(args, "expected_processes", MAX_CHARS) == NormalizedAll(b.processes)
  {
    hide Lookups, WithList, Fits;
    TwoLists(if call.args.Object? then call.args.fields else map[],
             "baseline_exposed_bindings", b.bindings, "expected_processes", b.processes);
  }

  /** Every item of the later snapshot matches a captured one up to case and outer white space. */
  predicate Matches(now: Snapshot, before: Snapshot) {
    && NormalizedAll(now.entries) <= NormalizedAll(before.entries)
    && NormalizedAll(now.accounts) <= NormalizedAll(before.accounts)
    && NormalizedAll(Addresses(ExposedOnly(now.listeners))) <= NormalizedAll(Addresses(ExposedOnly(before.listeners)))
    && NormalizedAll(Processes(ExposedOnly(now.listeners))) <= NormalizedAll(Processes(ExposedOnly(before.listeners)))
  }

  lemma {:induction false} ExposedMembers(listeners: seq<Listener>)
    ensures forall l :: l in ExposedOnly(listeners) <==> l in listeners && l.exposed
  {
    if listeners != [] {
      var n := |listeners| - 1;
      ExposedMembers(listeners[..n]);
      assert listeners == listeners[..n] + [listeners[n]];
    }
  }

  lemma {:induction false} ProcessMembers(listeners: seq<Listener>)
    ensures forall l | l in listeners && l.process.Some? :: l.process.value in Processes(listeners)
  {
    if listeners != [] {
      var n := |listeners| - 1;
      ProcessMembers(listeners[..n]);
      assert listeners == listeners[..n] + [listeners[n]];
    }
  }

  lemma {:induction false} UnnamedAreUnexpected(listeners: seq<Listener>, expected: set<string>)
    requires forall l | l in listeners && l.exposed && l.process.Some? :: Normalized(l.process.value) in expected
    ensures Unexpected(listeners, expected) == Unnamed(listeners)
  {
    hide Normalized;
    if listeners != [] {
      UnnamedAreUnexpected(listeners[..|listeners| - 1], expected);
    }
  }

  lemma OnlyUnnamedUnexpected(listeners: seq<Listener>, expected: set<string>)
    requires NormalizedAll(Processes(ExposedOnly(listeners))) <= expected
    ensures Unexpected(listeners, expected) == Unnamed(listeners)
  {
    hide Normalized;
    ExposedMembers(listeners);
    ProcessMembers(ExposedOnly(listeners));
    forall l | l in listeners && l.exposed && l.process.Some? ensures Normalized(l.process.value) in expected {
      assert Normalized(l.process.value) in NormalizedAll(Processes(ExposedOnly(listeners)));
    }
    UnnamedAreUnexpected(listeners, expected);
  }

  /** The exposed listeners whose process has no resolved name. */
  function Unnamed(listeners: seq<Listener>): seq<Listener> {
    if listeners == [] then []
    else
      var l := listeners[|listeners| - 1];
      Unnamed(listeners[..|listeners| - 1]) + if l.exposed && l.process.None? then [l] else []
  }

  predicate CapturesSomething(s: Snapshot) {
    s.entries != [] || s.accounts != [] || ExposedOnly(s.listeners) != []
  }

  lemma ImportSucceeds(s: Snapshot)
    requires FitsLimits(s) && CapturesSomething(s)
    ensures !IsEmpty(Extracted(Captured(s)))
  {
    var exposed := ExposedOnly(s.listeners);
    CaptureIsImported(s);
    hide Extracted, Captured, ExposedOnly, NormalizedAll, Processes, Fits;
    NothingNormalized(Extracted(Captured(s)).entries);
    NothingNormalized(Extracted(Captured(s)).accounts);
    NothingNormalized(Extracted(Captured(s)).bindings);
    NothingNormalized(s.entries);
    NothingNormalized(s.accounts);
    NothingNormalized(Addresses(exposed));
    assert |Addresses(exposed)| == |exposed|;
  }

  /** A later run that finds nothing but what the imported run captured reports no drift, and as
      unexpected just the exposed listeners without a name, if any process was captured. */
  lemma NoDrift(raw: seq<(Option<string>, Value)>, before: Snapshot, now: Snapshot, call: ToolCall)
    requires LatestCapture(raw) == Some(Captured(before)) && FitsLimits(before) && CapturesSomething(before)
    requires Matches(now, before) && SetsNothing(call)
    ensures LoadBaseline(raw).Success?
    ensures var args := WithBaseline(Some(LoadBaseline(raw).value), call).args;
      && (call.tool == "inspect_persistence_locations" ==> NewEntries(args, now) == [])
      && (call.tool == "audit_account_changes" ==>
            AccountChanges(args, now).newly == [] && AccountChanges(args, now).unapproved == [])
      && (call.tool == "correlate_process_network" ==>
            && NetworkChanges(args, now).newBindings == []
            && NetworkChanges(args, now).unknown ==
                 if Processes(ExposedOnly(before.listeners)) == [] then [] else Unnamed(now.listeners))
  {
    ImportSucceeds(before);
    CaptureIsImported(before);
    var b := Extracted(Captured(before));
    assert LoadBaseline(raw) == Success(b);
    hide Extracted, Captured, LoadBaseline;
    if call.tool == "inspect_persistence_locations" {
      NoPersistenceDrift(b, before, now, call);
    } else if call.tool == "audit_account_changes" {
      NoAccountDrift(b, before, now, call);
    } else if call.tool == "correlate_process_network" {
      NoNetworkDrift(b, before, now, call);
    }
  }

  lemma NothingNew(values: seq<string>, known: set<string>)
    requires NormalizedAll(values) <= known
    ensures Reported(values, known) == []
  {
    hide Normalized, Reported;
    forall v | v in values ensures Normalized(v) in known {
      assert Normalized(v) in NormalizedAll(values);
    }
    NothingReportedExactly(values, known);
  }

  lemma NoPersistenceDrift(b: CoverageBaseline, before: Snapshot, now: Snapshot, call: ToolCall)
    requires IsImportOf(b, before) && Matches(now, before) && SetsNothing(call)
    requires call.tool == "inspect_persistence_locations"
    ensures NewEntries(WithBaseline(Some(b), call).args, now) == []
  {
    hide Lookups, WithBaseline, Reported, NormalizedAll, Fits;
    PersistenceLookups(b, call);
    NothingNew(now.entries, NormalizedAll(b.entries));
  }

  lemma NoAccountDrift(b: CoverageBaseline, before: Snapshot, now: Snapshot, call: ToolCall)
    requires IsImportOf(b, before) && Matches(now, before) && SetsNothing(call)
    requires call.tool == "audit_account_changes"
    ensures var changes := AccountChanges(WithBaseline(Some(b), call).args, now); changes.newly == [] && changes.unapproved == []
  {
    hide WithBaseline, Reported, NormalizedAll, Fits, StringList;
    AccountLookups(b, call);
    NothingNew(now.accounts, NormalizedAll(b.accounts));
  }

  lemma NoNetworkDrift(b: CoverageBaseline, before: Snapshot, now: Snapshot, call: ToolCall)
    requires IsImportOf(b, before) && Matches(now, before) && SetsNothing(call)
    requires call.tool == "correlate_process_network"
    ensures var changes := NetworkChanges(WithBaseline(Some(b), call).args, now);
      && changes.newBindings == []
      && changes.unknown == if Processes(ExposedOnly(before.listeners)) == [] then [] else Unnamed(now.listeners)
  {
    var expected := NormalizedAll(b.processes);
    hide Lookups, WithBaseline, Reported, NormalizedAll, Fits, StringList, Unexpected, Unnamed, Processes, ExposedOnly, Addresses;
    NetworkLookups(b, call);
    NothingNew(Addresses(ExposedOnly(now.listeners)), NormalizedAll(b.bindings));
    OnlyUnnamedUnexpected(now.listeners, expected);
    NothingNormalized(Processes(ExposedOnly(before.listeners)));
  }

  // ---- what is reported instead ----

  /** Exactly the unexpected listeners are kept, each as often as it occurs, in order. */
  lemma {:induction false} UnexpectedExactly(listeners: seq<Listener>, expected: set<string>)
    ensures forall l :: multiset(Unexpected(listeners, expected))[l]
              == if IsUnexpected(l, expected) then multiset(listeners)[l] else 0
  {
    hide IsUnexpected;
    if listeners != [] {
      var n := |listeners| - 1;
      UnexpectedExactly(listeners[..n], expected);
      assert listeners == listeners[..n] + [listeners[n]];
    }
  }

  lemma {:induction false} UnexpectedConcat(a: seq<Listener>, b: seq<Listener>, expected: set<string>)
    ensures Unexpected(a + b, expected) == Unexpected(a, expected) + Unexpected(b, expected)
    decreases |b|
  {
    hide IsUnexpected;
    if b == [] {
      assert a + b == a;
    } else {
      var n := |b| - 1;
      assert (a + b)[..|a + b| - 1] == a + b[..n];
      UnexpectedConcat(a, b[..n], expected);
    }
  }

  /** The accounts that are gone: one spelling, in order, of each former account that is there no more. */
  ghost predicate AreRemoved(removed: seq<string>, former: seq<string>, current: set<string>) {
    && StrictlyAscending(removed)
    && (forall v | v in removed :: Normalized(v) !in current && Normalized(v) in NormalizedAll(former))
    && (forall v | v in former && Normalized(v) !in current :: exists w :: w in removed && Normalized(w) == Normalized(v))
  }

  lemma RemovedAccounts(imported: seq<string>, former: seq<string>, current: set<string>)
    requires NormalizedAll(imported) == NormalizedAll(former)
    ensures AreRemoved(SortedDistinct(Unknown(imported, current)), former, current)
  {
    var unknown := Unknown(imported, current);
    UnknownMembers(imported, current);
    SortedDistinctIs(unknown);
    SortedDistinctLookups(unknown);
    hide SortedDistinct, Unknown, Normalized;
    forall v | v in former && Normalized(v) !in current
      ensures exists w :: w in SortedDistinct(unknown) && Normalized(w) == Normalized(v)
    {
      assert Normalized(v) in NormalizedAll(imported);
      var u :| u in imported && Normalized(u) == Normalized(v);
      var w :| w in SortedDistinct(unknown) && Lower(w) == Lower(u);
      SameCaseSameLookup(w, u);
    }
  }

  lemma RemovedFromArguments(args: Value, former: seq<string>, now: Snapshot)
    requires Lookups(args, "baseline_privileged_accounts", MAX_CHARS) == NormalizedAll(former)
    ensures AreRemoved(AccountChanges(args, now).removed, former, NormalizedAll(now.accounts))
  {
    var imported := StringList(Get(args, "baseline_privileged_accounts"), MAX_ITEMS, MAX_CHARS);
    hide StringList, NormalizedAll, SortedDistinct, AreRemoved;
    RemovedAccounts(imported, former, NormalizedAll(now.accounts));
    if imported == [] {
      NothingIsUnknown(NormalizedAll(now.accounts));
    }
  }

  lemma NothingIsUnknown(known: set<string>)
    ensures SortedDistinct(Unknown([], known)) == []
  {
  }

  /** What the persistence tool reports. */
  ghost predicate PersistenceIsMeasured(args: Value, before: Snapshot, now: Snapshot) {
    NewEntries(args, now) == Reported(now.entries, NormalizedAll(before.entries))
  }

  /** What the account tool reports: new and unapproved accounts, and those that are gone. */
  ghost predicate AccountsAreMeasured(args: Value, before: Snapshot, now: Snapshot) {
    var changes := AccountChanges(args, now);
    && changes.newly == changes.unapproved == Reported(now.accounts, NormalizedAll(before.accounts))
    && AreRemoved(changes.removed, before.accounts, NormalizedAll(now.accounts))
  }

  /** What the network tool reports: new bindings, and listeners of unexpected processes. */
  ghost predicate NetworkIsMeasured(args: Value, before: Snapshot, now: Snapshot) {
    var changes, exposed := NetworkChanges(args, now), ExposedOnly(before.listeners);
    var expected := NormalizedAll(Processes(exposed));
    && changes.newBindings == Reported(Addresses(ExposedOnly(now.listeners)), NormalizedAll(Addresses(exposed)))
    && changes.unknown == if expected == {} then [] else Unexpected(now.listeners, expected)
  }

  /** Whatever a later run finds, each tool compares it with exactly what was captured. */
  lemma DriftIsMeasuredAgainstCapture(raw: seq<(Option<string>, Value)>, before: Snapshot, now: Snapshot, call: ToolCall)
    requires LatestCapture(raw) == Some(Captured(before)) && FitsLimits(before) && CapturesSomething(before)
    requires SetsNothing(call)
    ensures LoadBaseline(raw).Success?
    ensures var args := WithBaseline(Some(LoadBaseline(raw).value), call).args;
      && (call.tool == "inspect_persistence_locations" ==> PersistenceIsMeasured(args, before, now))
      && (call.tool == "audit_account_changes" ==> AccountsAreMeasured(args, before, now))
      && (call.tool == "correlate_process_network" ==> NetworkIsMeasured(args, before, now))
  {
    ImportSucceeds(before);
    CaptureIsImported(before);
    var b := Extracted(Captured(before));
    assert LoadBaseline(raw) == Success(b);
    hide Extracted, Captured, LoadBaseline, WithBaseline, Reported, NormalizedAll, Fits, StringList, ExposedOnly, Addresses,
         Processes, Unexpected, AreRemoved;
    if call.tool == "inspect_persistence_locations" {
      PersistenceLookups(b, call);
    } else if call.tool == "audit_account_changes" {
      AccountLookups(b, call);
      RemovedFromArguments(WithBaseline(Some(b), call).args, before.accounts, now);
    } else if call.tool == "correlate_process_network" {
      NetworkLookups(b, call);
    }
  }

  lemma {:induction false} CleanedAreShort(items: seq<Value>, maxChars: nat)
    ensures forall v | v in Cleaned(items, maxChars) :: |v| <= maxChars
  {
    hide Trim;
    if items != [] {
      CleanedAreShort(items[..|items| - 1], maxChars);
    }
  }

  lemma LookupsAreShort(args: Value, key: string, maxChars: nat)
    ensures forall k | k in Lookups(args, key, maxChars) :: |k| <= maxChars
  {
    var list := StringList(Get(args, key), MAX_ITEMS, maxChars);
    match Get(args, key)
    case Some(Array(items)) =>
      var cleaned := Cleaned(Taken(items, MAX_ITEMS), maxChars);
      CleanedAreShort(Taken(items, MAX_ITEMS), maxChars);
      SortedDistinctLookups(cleaned);
    case _ =>
  }

  /** An entry over the limit is reported as new by every comparison, captured or not. */
  lemma LongEntriesAreAlwaysNew(args: Value, now: Snapshot, entry: string)
    requires entry in now.entries && |Trim(entry)| > MAX_ENTRY_CHARS
    requires Lookups(args, "baseline_entries", MAX_ENTRY_CHARS) != {}
    ensures exists v :: v in NewEntries(args, now) && Lower(v) == Lower(entry)
  {
    LookupsAreShort(args, "baseline_entries", MAX_ENTRY_CHARS);
    assert |Normalized(entry)| > MAX_ENTRY_CHARS;
    hide Lookups, Normalized, Reported;
    ReportIsDifference(now.entries, Lookups(args, "baseline_entries", MAX_ENTRY_CHARS));
  }

  // ---- a snapshot compared with itself ----

  function FirstItems(values: seq<string>): seq<string> {
    if |values| <= MAX_ITEMS then values else values[..MAX_ITEMS]
  }

  lemma {:induction false} CleanedMembers(values: seq<string>, maxChars: nat)
    ensures forall c :: c in Cleaned(ArrayOf(values).items, maxChars)
              <==> exists v :: v in values && Trim(v) != "" && c == Shortened(Trim(v), maxChars)
  {
    hide Trim, Shortened;
    if values != [] {
      var n := |values| - 1;
      CleanedMembers(values[..n], maxChars);
      assert values == values[..n] + [values[n]];
      assert ArrayOf(values).items[..n] == ArrayOf(values[..n]).items;
    }
  }

  /** What is left of a string that is not blank still begins with its first visible character. */
  lemma ShortenedIsNotBlank(v: string, maxChars: nat)
    requires Trim(v) != "" && maxChars > 0
    ensures Trim(Shortened(Trim(v), maxChars)) != "" && |Trim(Shortened(Trim(v), maxChars))| <= maxChars
  {
    var s := Shortened(Trim(v), maxChars);
    assert s[0] == Trim(v)[0];
    assert !IsBlank(s);
    TrimIsShorter(s);
  }

  lemma TrimIsShorter(s: string)
    ensures |Trim(s)| <= |s|
  {
    var before, after := TrimParts(s);
  }

  /** The lookup values of the first items, trimmed and cut. */
  ghost predicate AreLookupsOf(known: set<string>, first: seq<string>) {
    forall k :: k in known <==>
      exists v :: v in first && Trim(v) != "" && k == Normalized(Shortened(Trim(v), MAX_ENTRY_CHARS))
  }

  lemma NoLookups(known: set<string>, first: seq<string>)
    requires AreLookupsOf(known, first)
    ensures known == {} <==> forall v | v in first :: Trim(v) == ""
  {
    hide Trim, Normalized, Shortened;
    if v :| v in first && Trim(v) != "" {
      assert Normalized(Shortened(Trim(v), MAX_ENTRY_CHARS)) in known;
    }
  }

  /** The imported entries, whatever was captured: they fit, and come from the first items. */
  lemma ImportedEntries(values: seq<string>)
    ensures var list := StringList(Some(ArrayOf(SortedDistinct(values))), MAX_ITEMS, MAX_ENTRY_CHARS);
      Fits(list, MAX_ITEMS, MAX_ENTRY_CHARS) && AreLookupsOf(NormalizedAll(list), FirstItems(SortedDistinct(values)))
  {
    var first := FirstItems(SortedDistinct(values));
    var cleaned := Cleaned(ArrayOf(first).items, MAX_ENTRY_CHARS);
    assert Taken(ArrayOf(SortedDistinct(values)).items, MAX_ITEMS) == ArrayOf(first).items;
    CleanedMembers(first, MAX_ENTRY_CHARS);
    CleanedIsShorter(ArrayOf(first).items, MAX_ENTRY_CHARS);
    SortedDistinctLookups(cleaned);
    hide SortedDistinct, Trim, Cleaned, Normalized, Shortened;
    forall c | c in cleaned ensures Trim(c) != "" && |Trim(c)| <= MAX_ENTRY_CHARS {
      var v :| v in first && Trim(v) != "" && c == Shortened(Trim(v), MAX_ENTRY_CHARS);
      ShortenedIsNotBlank(v, MAX_ENTRY_CHARS);
    }
    forall v | v in first && Trim(v) != "" ensures Normalized(Shortened(Trim(v), MAX_ENTRY_CHARS)) in NormalizedAll(cleaned) {
      assert Shortened(Trim(v), MAX_ENTRY_CHARS) in cleaned;
    }
  }

  lemma {:induction false} CleanedIsShorter(items: seq<Value>, maxChars: nat)
    ensures |Cleaned(items, maxChars)| <= |items|
  {
    hide Trim;
    if items != [] {
      CleanedIsShorter(items[..|items| - 1], maxChars);
    }
  }

  /** An entry that its own baseline contains: not blank, not too long, and among the first items up to
      case and outer white space. */
  predicate IsCovered(entry: string, first: seq<string>) {
    Trim(entry) != "" && |Trim(entry)| <= MAX_ENTRY_CHARS && Normalized(entry) in NormalizedAll(first)
  }

  lemma NormalizedShape(v: string)
    ensures |Normalized(v)| == |Trim(v)| && (Normalized(v) == "" <==> Trim(v) == "")
  {
  }

  lemma CoveredIsKnown(entry: string, first: seq<string>)
    requires IsCovered(entry, first)
    ensures exists v :: v in first && Trim(v) != "" && Normalized(entry) == Normalized(Shortened(Trim(v), MAX_ENTRY_CHARS))
  {
    hide Normalized, Trim;
    var v :| v in first && Normalized(v) == Normalized(entry);
    NormalizedShape(v);
    NormalizedShape(entry);
    TrimTwice(v);
    assert Shortened(Trim(v), MAX_ENTRY_CHARS) == Trim(v);
  }

  lemma KnownLookupsFit(k: string, first: seq<string>)
    requires exists v :: v in first && Trim(v) != "" && k == Normalized(Shortened(Trim(v), MAX_ENTRY_CHARS))
    ensures k != "" && |k| <= MAX_ENTRY_CHARS
  {
    hide Normalized, Trim;
    var v :| v in first && Trim(v) != "" && k == Normalized(Shortened(Trim(v), MAX_ENTRY_CHARS));
    ShortenedIsNotBlank(v, MAX_ENTRY_CHARS);
    NormalizedShape(Shortened(Trim(v), MAX_ENTRY_CHARS));
  }

  lemma AllKnownAreCovered(entries: seq<string>, first: seq<string>, known: set<string>)
    requires forall v | v in first :: v in entries
    requires AreLookupsOf(known, first)
    ensures (forall e | e in entries :: Normalized(e) in known) <==> forall e | e in entries :: IsCovered(e, first)
  {
    hide Normalized, Trim;
    if forall e | e in entries :: Normalized(e) in known {
      forall e | e in entries ensures Trim(e) != "" && |Trim(e)| <= MAX_ENTRY_CHARS {
        KnownLookupsFit(Normalized(e), first);
        NormalizedShape(e);
      }
      forall e | e in entries ensures IsCovered(e, first) {
        var v :| v in first && Trim(v) != "" && Normalized(e) == Normalized(Shortened(Trim(v), MAX_ENTRY_CHARS));
        assert v in entries && Shortened(Trim(v), MAX_ENTRY_CHARS) == Trim(v);
        TrimTwice(v);
      }
    }
    if forall e | e in entries :: IsCovered(e, first) {
      forall e | e in entries ensures Normalized(e) in known {
        CoveredIsKnown(e, first);
      }
    }
  }

  /** A snapshot whose baseline is imported and compared with the same snapshot shows no new entry,
      exactly if no entry is kept at all, or none is blank, too long or past the item limit. */
  lemma SelfComparisonExactly(s: Snapshot, call: ToolCall)
    requires call.tool == "inspect_persistence_locations" && SetsNothing(call)
    ensures var args := WithBaseline(Some(Extracted(Captured(s))), call).args;
            var first := FirstItems(SortedDistinct(s.entries));
            NewEntries(args, s) == []
            <==> (forall v | v in first :: Trim(v) == "") || (forall e | e in s.entries :: IsCovered(e, first))
  {
    var b := Extracted(Captured(s));
    var first := FirstItems(SortedDistinct(s.entries));
    ExtractedFromCapture(s);
    ImportedEntries(s.entries);
    hide Extracted, Captured, SortedDistinct, NormalizedAll, Lookups, WithBaseline, Reported, IsCovered, StringList, Fits,
         AreLookupsOf, Normalized, Trim;
    PersistenceLookups(b, call);
    var known := NormalizedAll(b.entries);
    NothingReportedExactly(s.entries, known);
    FirstItemsAreItems(s.entries);
    AllKnownAreCovered(s.entries, first, known);
    NoLookups(known, first);
  }

  lemma FirstItemsAreItems(values: seq<string>)
    ensures forall v | v in FirstItems(SortedDistinct(values)) :: v in values
  {
    hide SortedDistinct;
    SortedDistinctLookups(values);
  }
}
