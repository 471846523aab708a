/** Findings and the rules that derive them from tool observations
    (core_engine/src/lib.rs, `derive_findings`). */
module Findings {
  import opened Wrappers
  import opened Text
  import opened Json

  datatype Severity = Info | Low | Medium | High | Critical

  datatype Label = Informational | Possible | Likely | Confirmed

  datatype Relevance = Primary | Supplementary

  /** `turn` counts from 1. */
  datatype EvidencePointer = EvidencePointer(turn: Option<nat>, tool: Option<string>, field: string)

  /** `confidence` is in hundredths; `quoted` are the numbers the title quotes, without its wording. */
  datatype Finding = Finding(
    quoted: seq<nat>,
    severity: Severity,
    confidence: nat,
    confidenceLabel: Label,
    relevance: Relevance,
    pointer: EvidencePointer)

  datatype ToolCall = ToolCall(tool: string, args: Value)

  datatype Turn = Turn(call: Option<ToolCall>, observation: Option<Value>)

  const FINAL_ANSWER := "final_answer"
  const ERROR_FIELD := "observation.error"
  const SSH_DIRECTORIES := "ssh_directories_scanned"

  function LabelFor(confidence: nat): Label {
    if confidence >= 90 then Confirmed
    else if confidence >= 72 then Likely
    else if confidence >= 55 then Possible
    else Informational
  }

  function NewFinding(quoted: seq<nat>, severity: Severity, confidence: nat, pointer: EvidencePointer): Finding {
    Finding(quoted, severity, confidence, LabelFor(confidence), Primary, pointer)
  }

  /** Base, slope and ceiling are in thousandths; the result is rounded to hundredths. */
  function ConfidenceFromCount(base: nat, count: nat, slope: nat, ceiling: nat): (c: nat)
    ensures ceiling < 990 ==> c <= 99
  {
    var raw := base + count * slope;
    ((if raw < ceiling then raw else ceiling) + 5) / 10
  }

  // ---- one observation ----

  /** Where a finding was seen. */
  datatype Site = Site(turn: nat, tool: Option<string>, observation: Value)

  function At(site: Site, key: string): EvidencePointer {
    EvidencePointer(Some(site.turn), site.tool, "observation." + key)
  }

  /** A rule on one count: no finding below `floor`, else the first level reached grades it. */
  datatype CountRule = CountRule(key: string, floor: nat, levels: seq<(nat, Severity)>, otherwise: Severity,
                                 base: nat, slope: nat, ceiling: nat)

  function Graded(n: nat, levels: seq<(nat, Severity)>, otherwise: Severity): Severity {
    if levels == [] then otherwise
    else if n >= levels[0].0 then levels[0].1
    else Graded(n, levels[1..], otherwise)
  }

  function Counted(site: Site, rule: CountRule, n: nat): Finding {
    NewFinding([n], Graded(n, rule.levels, rule.otherwise),
               ConfidenceFromCount(rule.base, n, rule.slope, rule.ceiling), At(site, rule.key))
  }

  function ByCount(site: Site, rule: CountRule): seq<Finding> {
    match GetCount(site.observation, rule.key)
    case Some(n) => if n >= rule.floor then [Counted(site, rule, n)] else []
    case None => []
  }

  const INDICATORS := CountRule("indicator_count", 1, [(8, High), (4, Medium)], Low, 550, 50, 920)
  const LISTENERS := CountRule("listener_count", 1, [(250, High), (150, Medium), (50, Low)], Info, 500, 1, 800)
  const ACTIONABLE := CountRule("actionable_suspicious_count", 1, [(8, High), (3, Medium)], Low, 700, 50, 950)
  const SUSPICIOUS := CountRule("suspicious_entry_count", 1, [(8, High), (3, Medium)], Low, 700, 50, 950)

  const DRIFT_RULES := [
    CountRule("baseline_new_count", 1, [(8, High)], Medium, 690, 40, 940),
    CountRule("non_default_privileged_account_count", 1, [(5, High), (3, Medium)], Low, 550, 60, 920),
    CountRule("newly_privileged_account_count", 1, [(3, Critical)], High, 780, 40, 970),
    CountRule("unapproved_privileged_account_count", 1, [], Critical, 800, 40, 980),
    CountRule("externally_exposed_count", 1, [(10, High)], Medium, 660, 30, 930),
    CountRule("high_risk_exposed_count", 1, [(2, Critical)], High, 760, 40, 970),
    CountRule("unknown_exposed_process_count", 1, [], High, 720, 40, 950),
    CountRule("network_risk_score", 40, [(70, Critical)], High, 700, 2, 960)
  ]

  function ByCounts(site: Site, rules: seq<CountRule>): seq<Finding> {
    if rules == [] then [] else ByCount(site, rules[0]) + ByCounts(site, rules[1..])
  }

  function BaselineCaptured(site: Site): seq<Finding> {
    if GetStr(site.observation, "baseline_version").None? then []
    else [NewFinding([CountOrZero(site.observation, "baseline_entries_count"),
                      CountOrZero(site.observation, "baseline_privileged_account_count"),
                      CountOrZero(site.observation, "baseline_exposed_binding_count")],
                     Info, 90, At(site, "baseline_version"))]
  }

  /** Entries judged actionable take the place of the plain count. */
  function PersistenceEntries(site: Site): seq<Finding> {
    ByCount(site, if CountOrZero(site.observation, ACTIONABLE.key) > 0 then ACTIONABLE else SUSPICIOUS)
  }

  function HashCaptured(site: Site): seq<Finding> {
    if GetStr(site.observation, "path").Some? && GetStr(site.observation, "sha256").Some?
    then [NewFinding([], Info, 90, At(site, "sha256"))]
    else []
  }

  /** Unsigned 64-bit addition as a release build performs it. */
  function WrappingAdd(a: nat, b: nat): nat {
    (a + b) % 0x1_0000_0000_0000_0000
  }

  function SshKeys(site: Site): seq<Finding> {
    var authorized := GetCount(site.observation, "total_authorized_keys_files");
    if authorized.None? then []
    else
      var privateKeys := CountOrZero(site.observation, "total_private_keys");
      var scanned := CountOrZero(site.observation, SSH_DIRECTORIES);
      if authorized.value == 0 && privateKeys == 0 then [NewFinding([scanned], Info, 85, At(site, SSH_DIRECTORIES))]
      else
        [NewFinding([authorized.value, privateKeys, scanned],
                    Graded(authorized.value, [(3, High), (1, Medium)], Low),
                    ConfidenceFromCount(720, WrappingAdd(authorized.value, privateKeys), 40, 940),
                    At(site, "total_authorized_keys_files"))]
  }

  predicate IsSuspiciousLogLine(line: string) {
    exists word | word in ["error", "failed", "denied", "unauthorized", "suspicious"] :: Contains(Lower(line), word)
  }

  function SuspiciousHits(lines: seq<string>): nat {
    if lines == [] then 0 else (if IsSuspiciousLogLine(lines[0]) then 1 else 0) + SuspiciousHits(lines[1..])
  }

  function LogLines(site: Site): seq<Finding> {
    var lines := GetArray(site.observation, "lines");
    if lines.None? then []
    else
      var hits := SuspiciousHits(Strings(lines.value));
      if hits == 0 then []
      else [NewFinding([hits], if hits >= 5 then High else Medium, ConfidenceFromCount(640, hits, 50, 930), At(site, "lines"))]
  }

  function FailedCall(site: Site): Finding {
    NewFinding([], High, 95, At(site, "error"))
  }

  predicate ReportsError(observation: Value) {
    GetStr(observation, "error").Some?
  }

  /** An observation with an error message yields nothing else. */
  function SiteFindings(site: Site): seq<Finding> {
    if ReportsError(site.observation) then [FailedCall(site)]
    else
      ByCount(site, INDICATORS) + ByCount(site, LISTENERS) + BaselineCaptured(site) + PersistenceEntries(site)
      + ByCounts(site, DRIFT_RULES) + HashCaptured(site) + SshKeys(site) + LogLines(site)
  }

  // ---- a whole run ----

  function ToolOf(t: Turn): Option<string> {
    if t.call.Some? then Some(t.call.value.tool) else None
  }

  function TurnFindings(t: Turn, number: nat): seq<Finding> {
    if t.observation.None? then [] else SiteFindings(Site(number, ToolOf(t), t.observation.value))
  }

  function Collected(turns: seq<Turn>): seq<Finding> {
    if turns == [] then []
    else Collected(turns[..|turns| - 1]) + TurnFindings(turns[|turns| - 1], |turns|)
  }

  const NOTHING_FOUND := NewFinding([], Info, 55, EvidencePointer(None, None, FINAL_ANSWER))

  function OrFallback(findings: seq<Finding>): (r: seq<Finding>)
    ensures r != []
  {
    if findings == [] then [NOTHING_FOUND] else findings
  }

  function ToolsNamed(findings: seq<Finding>): set<string> {
    set f | f in findings && f.pointer.tool.Some? :: f.pointer.tool.value
  }

  /** Several tools that found something corroborate each other. */
  function Bonus(tools: nat): nat {
    if tools <= 1 then 0 else if tools == 2 then 3 else 5
  }

  function Corroborated(f: Finding, bonus: nat): Finding {
    if f.pointer.tool.Some? && f.pointer.field != ERROR_FIELD
    then f.(confidence := if f.confidence + bonus > 99 then 99 else f.confidence + bonus)
    else f
  }

  function Adjusted(f: Finding, bonus: nat): Finding {
    var g := Corroborated(f, bonus);
    g.(confidenceLabel := LabelFor(g.confidence))
  }

  function AdjustAll(findings: seq<Finding>, bonus: nat): seq<Finding> {
    seq(|findings|, i requires 0 <= i < |findings| => Adjusted(findings[i], bonus))
  }

  function Derived(turns: seq<Turn>): (r: seq<Finding>)
    ensures r != []
  {
    var findings := OrFallback(Collected(turns));
    AdjustAll(findings, Bonus(|ToolsNamed(findings)|))
  }

  method CollectFindings(turns: seq<Turn>) returns (findings: seq<Finding>)
    ensures findings == Collected(turns)
  {
    hide SiteFindings;
    findings := [];
    for idx := 0 to |turns|
      invariant findings == Collected(turns[..idx])
    {
      assert turns[..idx + 1][..idx] == turns[..idx];
      var t := turns[idx];
      if t.observation.None? {
        continue;
      }
      findings := findings + SiteFindings(Site(idx + 1, ToolOf(t), t.observation.value));
    }
    assert turns[..|turns|] == turns;
  }

  method DistinctTools(findings: seq<Finding>) returns (tools: set<string>)
    ensures tools == ToolsNamed(findings)
  {
    tools := {};
    for i := 0 to |findings|
      invariant tools == ToolsNamed(findings[..i])
    {
      if findings[i].pointer.tool.Some? {
        tools := tools + {findings[i].pointer.tool.value};
      }
      assert findings[..i + 1] == findings[..i] + [findings[i]];
    }
    assert findings[..|findings|] == findings;
  }

  method DeriveFindings(turns: seq<Turn>) returns (findings: seq<Finding>)
    ensures findings == Derived(turns)
  {
    hide Collected, ToolsNamed, LabelFor;
    findings := CollectFindings(turns);
    if findings == [] {
      findings := [NOTHING_FOUND];
    }
    var tools := DistinctTools(findings);
    ghost var found := findings;
    var bonus := Bonus(|tools|);
    for i := 0 to |findings|
      invariant |findings| == |found|
      invariant forall j :: 0 <= j < i ==> findings[j] == Corroborated(found[j], bonus)
      invariant forall j :: i <= j < |found| ==> findings[j] == found[j]
    {
      var f := findings[i];
      if f.pointer.tool.Some? && f.pointer.field != ERROR_FIELD {
        findings := findings[i := f.(confidence := if f.confidence + bonus > 99 then 99 else f.confidence + bonus)];
      }
    }
    findings := seq(|findings|, i requires 0 <= i < |findings| =>
                      findings[i].(confidenceLabel := LabelFor(findings[i].confidence)));
  }

  // ---- what each derived finding points to ----

  /** An SSH scan that found neither authorized keys nor private ones. */
  predicate FindsNoSshKeys(observation: Value) {
    && !ReportsError(observation)
    && GetCount(observation, "total_authorized_keys_files") == Some(0)
    && CountOrZero(observation, "total_private_keys") == 0
  }

  /** Such a scan without the count of scanned directories, which its finding names all the same. */
  predicate NamesAbsentField(observation: Value) {
    FindsNoSshKeys(observation) && Get(observation, SSH_DIRECTORIES).None?
  }

  const SSH_FIELD := "observation." + SSH_DIRECTORIES

  ghost predicate IsField(field: string, observation: Value) {
    exists key :: field == "observation." + key && Get(observation, key).Some?
  }

  /** The site's turn and tool, and a field of its observation. The one exception is exact. */
  ghost predicate ResolvesAt(p: EvidencePointer, site: Site) {
    && p.turn == Some(site.turn) && p.tool == site.tool
    && (IsField(p.field, site.observation) || (p.field == SSH_FIELD && NamesAbsentField(site.observation)))
  }

  /** The one finding of a failed call, or a finding on something else. */
  ghost predicate StemsFrom(f: Finding, site: Site) {
    && ResolvesAt(f.pointer, site) && f.relevance == Primary && f.pointer.field != FINAL_ANSWER
    && (if ReportsError(site.observation) then f == FailedCall(site) else f.pointer.field != ERROR_FIELD)
    && (f.pointer.field == SSH_FIELD ==> FindsNoSshKeys(site.observation) && f.confidence == 85)
  }

  ghost predicate AllStemFrom(findings: seq<Finding>, site: Site) {
    forall f | f in findings :: StemsFrom(f, site)
  }

  lemma NewStemsFrom(site: Site, key: string, f: Finding)
    requires Get(site.observation, key).Some? || (key == SSH_DIRECTORIES && NamesAbsentField(site.observation))
    requires f.pointer == At(site, key) && f.relevance == Primary
    requires if ReportsError(site.observation) then f == FailedCall(site) else key != "error"
    requires key == SSH_DIRECTORIES ==> FindsNoSshKeys(site.observation) && f.confidence == 85
    ensures StemsFrom(f, site)
  {
    assert ("observation." + key)[12..] == key;
    assert ERROR_FIELD[12..] == "error" && SSH_FIELD[12..] == SSH_DIRECTORIES;
    assert f.pointer.field[0] == 'o' && FINAL_ANSWER[0] == 'f';
  }

  lemma CountStemsFrom(site: Site, rule: CountRule)
    requires !ReportsError(site.observation) && rule.key != "error" && rule.key != SSH_DIRECTORIES
    ensures AllStemFrom(ByCount(site, rule), site)
  {
    hide ConfidenceFromCount, Graded, StemsFrom;
    forall f | f in ByCount(site, rule) ensures StemsFrom(f, site) {
      NewStemsFrom(site, rule.key, f);
    }
  }

  lemma {:induction false} CountsStemFrom(site: Site, rules: seq<CountRule>)
    requires !ReportsError(site.observation) && forall rule | rule in rules :: rule.key != "error" && rule.key != SSH_DIRECTORIES
    ensures AllStemFrom(ByCounts(site, rules), site)
  {
    hide ByCount, StemsFrom;
    if rules != [] {
      CountStemsFrom(site, rules[0]);
      CountsStemFrom(site, rules[1..]);
    }
  }

  lemma OthersStemFrom(site: Site)
    requires !ReportsError(site.observation)
    ensures AllStemFrom(BaselineCaptured(site), site) && AllStemFrom(HashCaptured(site), site)
    ensures AllStemFrom(SshKeys(site), site) && AllStemFrom(LogLines(site), site)
  {
    hide ConfidenceFromCount, Graded, SuspiciousHits, StemsFrom;
    forall f | f in BaselineCaptured(site) ensures StemsFrom(f, site) { NewStemsFrom(site, "baseline_version", f); }
    forall f | f in HashCaptured(site) ensures StemsFrom(f, site) { NewStemsFrom(site, "sha256", f); }
    forall f | f in LogLines(site) ensures StemsFrom(f, site) { NewStemsFrom(site, "lines", f); }
    forall f | f in SshKeys(site) ensures StemsFrom(f, site) {
      NewStemsFrom(site, if f.pointer == At(site, SSH_DIRECTORIES) then SSH_DIRECTORIES else "total_authorized_keys_files", f);
    }
  }

  lemma SiteStemsFrom(site: Site)
    ensures AllStemFrom(SiteFindings(site), site)
  {
    hide ByCount, ByCounts, StemsFrom, BaselineCaptured, HashCaptured, SshKeys, LogLines;
    if ReportsError(site.observation) {
      NewStemsFrom(site, "error", FailedCall(site));
    } else {
      CountStemsFrom(site, INDICATORS);
      CountStemsFrom(site, LISTENERS);
      CountsStemFrom(site, DRIFT_RULES);
      CountStemsFrom(site, ACTIONABLE);
      CountStemsFrom(site, SUSPICIOUS);
      OthersStemFrom(site);
    }
  }

  function SiteOf(turns: seq<Turn>, number: nat): Site
    requires 1 <= number <= |turns| && turns[number - 1].observation.Some?
  {
    Site(number, ToolOf(turns[number - 1]), turns[number - 1].observation.value)
  }

  /** The finding stems from some turn of the run. */
  ghost predicate StemsFromRun(f: Finding, turns: seq<Turn>) {
    && f.pointer.turn.Some? && 1 <= f.pointer.turn.value <= |turns|
    && turns[f.pointer.turn.value - 1].observation.Some?
    && StemsFrom(f, SiteOf(turns, f.pointer.turn.value))
  }

  lemma StemsFromLonger(f: Finding, turns: seq<Turn>, t: Turn)
    requires StemsFromRun(f, turns)
    ensures StemsFromRun(f, turns + [t])
  {
    hide StemsFrom;
    assert (turns + [t])[f.pointer.turn.value - 1] == turns[f.pointer.turn.value - 1];
  }

  lemma LastStems(turns: seq<Turn>, t: Turn)
    ensures forall f | f in TurnFindings(t, |turns| + 1) :: StemsFromRun(f, turns + [t])
  {
    hide SiteFindings, FailedCall;
    var all := turns + [t];
    assert all[|turns|] == t;
    if t.observation.Some? {
      SiteStemsFrom(SiteOf(all, |turns| + 1));
    }
  }

  lemma {:induction false} CollectedStem(turns: seq<Turn>)
    ensures forall f | f in Collected(turns) :: StemsFromRun(f, turns)
  {
    hide TurnFindings, StemsFromRun;
    if turns != [] {
      var front, t := turns[..|turns| - 1], turns[|turns| - 1];
      assert turns == front + [t];
      CollectedStem(front);
      LastStems(front, t);
      forall f | f in Collected(turns) ensures StemsFromRun(f, turns) {
        if f in Collected(front) {
          StemsFromLonger(f, front, t);
        }
      }
    }
  }

  /** A real turn, the tool called in it, and a field of its observation. */
  ghost predicate Resolves(p: EvidencePointer, turns: seq<Turn>) {
    && p.turn.Some? && 1 <= p.turn.value <= |turns| && turns[p.turn.value - 1].observation.Some?
    && ResolvesAt(p, SiteOf(turns, p.turn.value))
  }

  /** The label agrees with the confidence, which is less than certainty. */
  predicate IsLabelled(f: Finding) {
    f.confidenceLabel == LabelFor(f.confidence) && (f.pointer.tool.Some? && f.pointer.field != ERROR_FIELD ==> f.confidence <= 99)
  }

  /** Either every finding points into the run, or there is just the one that says nothing was found. */
  lemma DerivedResolve(turns: seq<Turn>)
    ensures (forall f | f in Derived(turns) :: Resolves(f.pointer, turns)) || Derived(turns) == [NOTHING_FOUND]
    ensures forall f | f in Derived(turns) :: f.relevance == Primary && IsLabelled(f)
  {
    CollectedStem(turns);
    hide Collected, ResolvesAt, ToolsNamed;
    var findings := OrFallback(Collected(turns));
    forall f | f in Derived(turns)
      ensures f.relevance == Primary && IsLabelled(f) && exists g :: g in findings && g.pointer == f.pointer
    {
      var i :| 0 <= i < |findings| && f == Derived(turns)[i];
      assert findings[i] in findings;
      assert findings[i].pointer == f.pointer;
    }
  }

  // ---- the field that may be absent ----

  lemma FieldIsKey(key: string, observation: Value)
    ensures IsField("observation." + key, observation) <==> Get(observation, key).Some?
  {
    forall other: string | "observation." + other == "observation." + key ensures other == key {
      assert ("observation." + other)[12..] == other && ("observation." + key)[12..] == key;
    }
  }

  lemma NoKeysFinding(site: Site)
    requires FindsNoSshKeys(site.observation)
    ensures exists f :: f in SiteFindings(site) && f.pointer == At(site, SSH_DIRECTORIES)
  {
    hide ByCount, ByCounts, PersistenceEntries, BaselineCaptured, HashCaptured, LogLines;
    assert SshKeys(site)[0].pointer == At(site, SSH_DIRECTORIES);
    assert SshKeys(site)[0] in SiteFindings(site);
  }

  /** Every finding of an observation names one of its fields, exactly if it is not an SSH scan that
      found nothing and does not say how many directories it scanned. */
  lemma FieldsArePresentExactly(site: Site)
    ensures (forall f | f in SiteFindings(site) :: IsField(f.pointer.field, site.observation))
      <==> !NamesAbsentField(site.observation)
  {
    SiteStemsFrom(site);
    hide SiteFindings, IsField, FailedCall;
    if NamesAbsentField(site.observation) {
      NoKeysFinding(site);
      FieldIsKey(SSH_DIRECTORIES, site.observation);
    }
  }

  const EMPTY_SSH_SCAN := Object(map["total_authorized_keys_files" := Whole(0)])

  /** A run whose one finding names a field that its observation does not have. */
  lemma ScannedDirectoriesMayBeAbsent(tool: Option<string>)
    ensures exists f :: f in SiteFindings(Site(1, tool, EMPTY_SSH_SCAN)) && !IsField(f.pointer.field, EMPTY_SSH_SCAN)
  {
    FieldsArePresentExactly(Site(1, tool, EMPTY_SSH_SCAN));
    hide SiteFindings, IsField;
    EmptyScanNamesAbsentField();
  }

  lemma EmptyScanNamesAbsentField()
    ensures NamesAbsentField(EMPTY_SSH_SCAN)
  {
    assert GetCount(EMPTY_SSH_SCAN, "total_authorized_keys_files") == Some(0);
    assert Get(EMPTY_SSH_SCAN, "total_private_keys").None? && Get(EMPTY_SSH_SCAN, "error").None?;
  }

  lemma {:induction false} CollectedMembers(turns: seq<Turn>)
    ensures forall f :: f in Collected(turns) <==> exists n :: 0 <= n < |turns| && f in TurnFindings(turns[n], n + 1)
  {
    hide TurnFindings;
    if turns != [] {
      var front, last := turns[..|turns| - 1], turns[|turns| - 1];
      CollectedMembers(front);
      assert Collected(turns) == Collected(front) + TurnFindings(last, |turns|);
      forall f | f in Collected(turns) ensures exists n :: 0 <= n < |turns| && f in TurnFindings(turns[n], n + 1) {
        if f in Collected(front) {
          var n :| 0 <= n < |front| && f in TurnFindings(front[n], n + 1);
          assert f in TurnFindings(turns[n], n + 1);
        } else {
          assert f in TurnFindings(turns[|turns| - 1], |turns|);
        }
      }
      forall f, n | 0 <= n < |turns| && f in TurnFindings(turns[n], n + 1) ensures f in Collected(turns) {
        if n < |front| {
          assert f in TurnFindings(front[n], n + 1);
        }
      }
    }
  }

  /** The finding names a field of the observation of the turn it points to. */
  ghost predicate NamesPresentField(p: EvidencePointer, turns: seq<Turn>) {
    && p.turn.Some? && 1 <= p.turn.value <= |turns| && turns[p.turn.value - 1].observation.Some?
    && IsField(p.field, turns[p.turn.value - 1].observation.value)
  }

  predicate HasAbsentField(t: Turn) {
    t.observation.Some? && NamesAbsentField(t.observation.value)
  }

  /** Every empty scan yields its finding. */
  lemma ScanIsCollected(turns: seq<Turn>, n: nat) returns (f: Finding)
    requires 1 <= n <= |turns| && turns[n - 1].observation.Some? && FindsNoSshKeys(turns[n - 1].observation.value)
    ensures f in Collected(turns) && f.pointer == At(SiteOf(turns, n), SSH_DIRECTORIES)
  {
    hide Collected, SiteFindings, FindsNoSshKeys, At;
    CollectedMembers(turns);
    NoKeysFinding(SiteOf(turns, n));
    f :| f in SiteFindings(SiteOf(turns, n)) && f.pointer == At(SiteOf(turns, n), SSH_DIRECTORIES);
    assert f in TurnFindings(turns[n - 1], n);
  }

  lemma AbsentFieldIsNamed(turns: seq<Turn>, n: nat)
    requires n < |turns| && HasAbsentField(turns[n])
    ensures exists f :: f in Collected(turns) && !NamesPresentField(f.pointer, turns)
  {
    hide Collected, IsField, FindsNoSshKeys, ToolOf;
    var f := ScanIsCollected(turns, n + 1);
    FieldIsKey(SSH_DIRECTORIES, turns[n].observation.value);
  }

  lemma PresentUnlessAbsent(f: Finding, turns: seq<Turn>)
    requires StemsFromRun(f, turns) && !HasAbsentField(turns[f.pointer.turn.value - 1])
    ensures NamesPresentField(f.pointer, turns)
  {
    hide IsField, NamesAbsentField, FailedCall;
  }

  /** The same for the findings of a whole run, before any are dropped. */
  lemma CollectedFieldsArePresentExactly(turns: seq<Turn>)
    ensures (forall f | f in Collected(turns) :: NamesPresentField(f.pointer, turns))
      <==> forall n :: 0 <= n < |turns| ==> !HasAbsentField(turns[n])
  {
    CollectedStem(turns);
    hide Collected, NamesPresentField, HasAbsentField, StemsFrom;
    if n :| 0 <= n < |turns| && HasAbsentField(turns[n]) {
      AbsentFieldIsNamed(turns, n);
    } else {
      forall f | f in Collected(turns) ensures NamesPresentField(f.pointer, turns) {
        PresentUnlessAbsent(f, turns);
      }
    }
  }

  lemma DerivedFieldsArePresentExactly(turns: seq<Turn>)
    ensures Derived(turns) == [NOTHING_FOUND]
      || ((forall f | f in Derived(turns) :: NamesPresentField(f.pointer, turns))
          <==> forall n :: 0 <= n < |turns| ==> !HasAbsentField(turns[n]))
  {
    CollectedFieldsArePresentExactly(turns);
    hide Collected, NamesPresentField, HasAbsentField, ToolsNamed, LabelFor;
    var collected, derived := Collected(turns), Derived(turns);
    if collected != [] {
      assert forall i :: 0 <= i < |collected| ==> derived[i].pointer == collected[i].pointer;
      if forall f | f in derived :: NamesPresentField(f.pointer, turns) {
        forall f | f in collected ensures NamesPresentField(f.pointer, turns) {
          var i :| 0 <= i < |collected| && collected[i] == f;
          assert derived[i] in derived;
        }
      }
      if forall f | f in collected :: NamesPresentField(f.pointer, turns) {
        forall f | f in derived ensures NamesPresentField(f.pointer, turns) {
          var i :| 0 <= i < |derived| && derived[i] == f;
          assert collected[i] in collected;
        }
      }
    }
  }
}
