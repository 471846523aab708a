/** What a run must report (core_engine/src/lib.rs, `derive_findings`): a table of its own, from a field
    and an observation to the finding that is due, and that exactly these findings are derived. */
module FindingRules {
  import opened Wrappers
  import opened Text
  import opened Json
  import opened Findings
  import opened FindingSelection
  import opened FindingReport
  import opened FindingFields

  /** The fields that findings name, in the order in which they are looked at. */
  datatype Field =
    | CallError | Indicators | Listeners | BaselineVersion | Actionable | Suspicious | NewEntries | NonDefaultAccounts
    | NewAccounts | UnapprovedAccounts | Exposed | HighRisk | UnknownProcesses | RiskScore | Sha256 | AuthorizedKeys
    | SshDirectories | LogText

  const DRIFT_FIELDS: seq<Field> := [
    NewEntries, NonDefaultAccounts, NewAccounts, UnapprovedAccounts, Exposed, HighRisk, UnknownProcesses, RiskScore]

  const FIELDS: seq<Field> :=
    [CallError, Indicators, Listeners, BaselineVersion] + [Actionable, Suspicious] + DRIFT_FIELDS
    + [Sha256] + [AuthorizedKeys, SshDirectories] + [LogText]

  function Key(field: Field): string {
    match field
    case CallError => "error"
    case Indicators => "indicator_count"
    case Listeners => "listener_count"
    case BaselineVersion => "baseline_version"
    case Actionable => "actionable_suspicious_count"
    case Suspicious => "suspicious_entry_count"
    case NewEntries => "baseline_new_count"
    case NonDefaultAccounts => "non_default_privileged_account_count"
    case NewAccounts => "newly_privileged_account_count"
    case UnapprovedAccounts => "unapproved_privileged_account_count"
    case Exposed => "externally_exposed_count"
    case HighRisk => "high_risk_exposed_count"
    case UnknownProcesses => "unknown_exposed_process_count"
    case RiskScore => "network_risk_score"
    case Sha256 => "sha256"
    case AuthorizedKeys => "total_authorized_keys_files"
    case SshDirectories => "ssh_directories_scanned"
    case LogText => "lines"
  }

  /** The numbers a finding quotes, its severity, and its confidence before corroboration. */
  datatype Due = Due(quoted: seq<nat>, severity: Severity, confidence: nat)

  predicate IsCount(field: Field) {
    !(field.CallError? || field.BaselineVersion? || field.Sha256? || field.AuthorizedKeys? || field.SshDirectories?
      || field.LogText?)
  }

  /** The counts that matter, and how much. */
  function SeverityOf(field: Field, n: nat): Option<Severity>
    requires IsCount(field)
  {
    if n == 0 then None
    else
      match field
      case Indicators => Some(if n < 4 then Low else if n < 8 then Medium else High)
      case Listeners => Some(if n < 50 then Info else if n < 150 then Low else if n < 250 then Medium else High)
      case Actionable | Suspicious => Some(if n < 3 then Low else if n < 8 then Medium else High)
      case NewEntries => Some(if n < 8 then Medium else High)
      case NonDefaultAccounts => Some(if n < 3 then Low else if n < 5 then Medium else High)
      case NewAccounts => Some(if n < 3 then High else Critical)
      case UnapprovedAccounts => Some(Critical)
      case Exposed => Some(if n < 10 then Medium else High)
      case HighRisk => Some(if n < 2 then High else Critical)
      case UnknownProcesses => Some(High)
      case RiskScore => if n < 40 then None else Some(if n < 70 then High else Critical)
  }

  function Least(a: nat, b: nat): nat {
    if a < b then a else b
  }

  /** In hundredths; the two fine slopes are rounded. */
  function ConfidenceOf(field: Field, n: nat): nat
    requires IsCount(field)
  {
    match field
    case Indicators => Least(92, 55 + 5 * n)
    case Listeners => Least(80, (505 + n) / 10)
    case Actionable | Suspicious => Least(95, 70 + 5 * n)
    case NewEntries => Least(94, 69 + 4 * n)
    case NonDefaultAccounts => Least(92, 55 + 6 * n)
    case NewAccounts => Least(97, 78 + 4 * n)
    case UnapprovedAccounts => Least(98, 80 + 4 * n)
    case Exposed => Least(93, 66 + 3 * n)
    case HighRisk => Least(97, 76 + 4 * n)
    case UnknownProcesses => Least(95, 72 + 4 * n)
    case RiskScore => Least(96, (705 + 2 * n) / 10)
  }

  function DueForCount(field: Field, o: Value): Option<Due>
    requires IsCount(field)
  {
    match GetCount(o, Key(field))
    case None => None
    case Some(n) =>
      if SeverityOf(field, n).None? || (field.Suspicious? && CountOrZero(o, "actionable_suspicious_count") > 0) then None
      else Some(Due([n], SeverityOf(field, n).value, ConfidenceOf(field, n)))
  }

  const ALARMING := ["error", "failed", "denied", "unauthorized", "suspicious"]

  /** It holds one of the words, in any case of letters. */
  predicate IsAlarming(line: Value) {
    line.Str? && exists word | word in ALARMING :: Contains(Lower(line.text), word)
  }

  /** The places of the alarming lines. */
  function AlarmingLines(items: seq<Value>): set<nat> {
    set i: nat | i < |items| && IsAlarming(items[i])
  }

  function DueForLines(o: Value): Option<Due> {
    match GetArray(o, "lines")
    case None => None
    case Some(items) =>
      var n := |AlarmingLines(items)|;
      if n == 0 then None else Some(Due([n], if n < 5 then Medium else High, Least(93, 64 + 5 * n)))
  }

  function DueForKeys(o: Value): Option<Due> {
    var privateKeys := CountOrZero(o, "total_private_keys");
    match GetCount(o, "total_authorized_keys_files")
    case None => None
    case Some(n) =>
      if n == 0 && privateKeys == 0 then None
      else Some(Due([n, privateKeys, CountOrZero(o, "ssh_directories_scanned")],
                    if n == 0 then Low else if n < 3 then Medium else High,
                    Least(94, 72 + 4 * ((n + privateKeys) % 0x1_0000_0000_0000_0000))))
  }

  function DueForNoKeys(o: Value): Option<Due> {
    if GetCount(o, "total_authorized_keys_files") == Some(0) && CountOrZero(o, "total_private_keys") == 0
    then Some(Due([CountOrZero(o, "ssh_directories_scanned")], Info, 85))
    else None
  }

  /** The finding due on a field of an observation. A failed call is all there is to say about it. */
  function DueOn(field: Field, o: Value): Option<Due> {
    if GetStr(o, "error").Some? then (if field.CallError? then Some(Due([], High, 95)) else None)
    else
      match field
      case CallError => None
      case BaselineVersion =>
        if GetStr(o, "baseline_version").None? then None
        else Some(Due([CountOrZero(o, "baseline_entries_count"), CountOrZero(o, "baseline_privileged_account_count"),
                       CountOrZero(o, "baseline_exposed_binding_count")], Info, 90))
      case Sha256 => if GetStr(o, "path").Some? && GetStr(o, "sha256").Some? then Some(Due([], Info, 90)) else None
      case AuthorizedKeys => DueForKeys(o)
      case SshDirectories => DueForNoKeys(o)
      case LogText => DueForLines(o)
      case _ => DueForCount(field, o)
  }

  function FindingOn(site: Site, field: Field): seq<Finding> {
    match DueOn(field, site.observation)
    case None => []
    case Some(due) =>
      [Finding(due.quoted, due.severity, due.confidence, LabelFor(due.confidence), Primary,
               EvidencePointer(Some(site.turn), site.tool, "observation." + Key(field)))]
  }

  function Listed(site: Site, fields: seq<Field>): seq<Finding> {
    if fields == [] then [] else FindingOn(site, fields[0]) + Listed(site, fields[1..])
  }

  // ---- more is never less severe ----

  /** `a` is no milder than `b`. */
  predicate IsAtLeast(a: Severity, b: Severity) {
    && (b.Critical? ==> a.Critical?)
    && (b.High? ==> a.High? || a.Critical?)
    && (b.Medium? ==> !a.Info? && !a.Low?)
    && (b.Low? ==> !a.Info?)
  }

  lemma MoreIsNeverMilder(field: Field, n: nat, m: nat)
    requires IsCount(field) && n <= m && SeverityOf(field, n).Some?
    ensures SeverityOf(field, m).Some? && IsAtLeast(SeverityOf(field, m).value, SeverityOf(field, n).value)
    ensures ConfidenceOf(field, n) <= ConfidenceOf(field, m) <= 98
  {
  }

  // ---- one observation ----

  /** A rule says of a count what the table says. */
  ghost predicate AgreesAt(rule: CountRule, field: Field, n: nat)
    requires IsCount(field)
  {
    && (n >= rule.floor <==> SeverityOf(field, n).Some?)
    && (n >= rule.floor ==>
          && SeverityOf(field, n).value == Graded(n, rule.levels, rule.otherwise)
          && ConfidenceOf(field, n) == ConfidenceFromCount(rule.base, n, rule.slope, rule.ceiling))
  }

  ghost predicate Agrees(rule: CountRule, field: Field)
    requires IsCount(field)
  {
    rule.key == Key(field) && forall n: nat :: AgreesAt(rule, field, n)
  }

  lemma GradedByThree(n: nat, levels: seq<(nat, Severity)>, otherwise: Severity)
    requires |levels| <= 3
    ensures Graded(n, levels, otherwise)
         == if |levels| > 0 && n >= levels[0].0 then levels[0].1
            else if |levels| > 1 && n >= levels[1].0 then levels[1].1
            else if |levels| > 2 && n >= levels[2].0 then levels[2].1
            else otherwise
  {
    if |levels| > 0 {
      assert Graded(n, levels[1..], otherwise) == Graded(n, levels[1..], otherwise);
    }
    if |levels| > 1 {
      assert levels[1..][1..] == levels[2..];
    }
    if |levels| > 2 {
      assert levels[2..][1..] == [];
    }
  }

  lemma RulesAgree()
    ensures Agrees(INDICATORS, Indicators) && Agrees(LISTENERS, Listeners)
    ensures Agrees(ACTIONABLE, Actionable) && Agrees(SUSPICIOUS, Suspicious)
  {
    hide Graded;
    forall n: nat
      ensures AgreesAt(INDICATORS, Indicators, n) && AgreesAt(LISTENERS, Listeners, n)
      ensures AgreesAt(ACTIONABLE, Actionable, n) && AgreesAt(SUSPICIOUS, Suspicious, n)
    {
      GradedByThree(n, INDICATORS.levels, INDICATORS.otherwise);
      GradedByThree(n, LISTENERS.levels, LISTENERS.otherwise);
      GradedByThree(n, ACTIONABLE.levels, ACTIONABLE.otherwise);
    }
  }

  lemma AccountRulesAgree(i: nat)
    requires i < 4
    ensures |DRIFT_RULES| == 8 && Agrees(DRIFT_RULES[i], DRIFT_FIELDS[i])
  {
    hide Graded;
    forall n: nat ensures AgreesAt(DRIFT_RULES[i], DRIFT_FIELDS[i], n) {
      GradedByThree(n, DRIFT_RULES[i].levels, DRIFT_RULES[i].otherwise);
    }
  }

  lemma NetworkRulesAgree(i: nat)
    requires 4 <= i < 7
    ensures |DRIFT_RULES| == 8 && Agrees(DRIFT_RULES[i], DRIFT_FIELDS[i])
  {
    hide Graded;
    forall n: nat ensures AgreesAt(DRIFT_RULES[i], DRIFT_FIELDS[i], n) {
      GradedByThree(n, DRIFT_RULES[i].levels, DRIFT_RULES[i].otherwise);
    }
  }

  lemma RiskRuleAgrees()
    ensures |DRIFT_RULES| == 8 && Agrees(DRIFT_RULES[7], DRIFT_FIELDS[7])
  {
    hide Graded;
    forall n: nat ensures AgreesAt(DRIFT_RULES[7], DRIFT_FIELDS[7], n) {
      GradedByThree(n, DRIFT_RULES[7].levels, DRIFT_RULES[7].otherwise);
    }
  }

  lemma CountIsDue(site: Site, rule: CountRule, field: Field)
    requires IsCount(field) && Agrees(rule, field) && !ReportsError(site.observation)
    requires field.Suspicious? ==> CountOrZero(site.observation, "actionable_suspicious_count") == 0
    ensures ByCount(site, rule) == FindingOn(site, field)
  {
    hide Graded, SeverityOf, ConfidenceOf, ConfidenceFromCount, Key, LabelFor;
    if GetCount(site.observation, rule.key).Some? {
      assert AgreesAt(rule, field, GetCount(site.observation, rule.key).value);
    }
  }

  lemma PersistenceIsDue(site: Site)
    requires !ReportsError(site.observation)
    ensures PersistenceEntries(site) == FindingOn(site, Actionable) + FindingOn(site, Suspicious)
  {
    RulesAgree();
    var n := CountOrZero(site.observation, "actionable_suspicious_count");
    assert ACTIONABLE.key == "actionable_suspicious_count";
    if n > 0 {
      assert FindingOn(site, Suspicious) == [];
      CountIsDue(site, ACTIONABLE, Actionable);
    } else {
      assert FindingOn(site, Actionable) == [];
      CountIsDue(site, SUSPICIOUS, Suspicious);
    }
  }

  lemma {:induction false} RulesAreDue(site: Site, rules: seq<CountRule>, fields: seq<Field>)
    requires !ReportsError(site.observation) && |rules| == |fields|
    requires forall i :: 0 <= i < |rules| ==> IsCount(fields[i]) && !fields[i].Suspicious? && Agrees(rules[i], fields[i])
    ensures ByCounts(site, rules) == Listed(site, fields)
  {
    hide FindingOn, ByCount, Agrees;
    if rules != [] {
      CountIsDue(site, rules[0], fields[0]);
      RulesAreDue(site, rules[1..], fields[1..]);
    }
  }

  lemma DriftIsDue(site: Site)
    requires !ReportsError(site.observation)
    ensures ByCounts(site, DRIFT_RULES) == Listed(site, DRIFT_FIELDS)
  {
    hide ByCounts, Listed, Agrees;
    assert forall field | field in DRIFT_FIELDS :: IsCount(field) && !field.Suspicious?;
    forall i | 0 <= i < 8 ensures |DRIFT_RULES| == 8 && Agrees(DRIFT_RULES[i], DRIFT_FIELDS[i]) {
      if i < 4 { AccountRulesAgree(i); } else if i < 7 { NetworkRulesAgree(i); } else { RiskRuleAgrees(); }
    }
    assert |DRIFT_RULES| == 8;
    RulesAreDue(site, DRIFT_RULES, DRIFT_FIELDS);
  }

  // ---- log lines ----

  lemma {:induction false} HitsAreLines(items: seq<Value>)
    ensures SuspiciousHits(Strings(items)) == |AlarmingLines(items)|
  {
    hide IsAlarming, SuspiciousHits, Strings;
    if items == [] {
      NoHits();
      assert AlarmingLines(items) == {};
    } else {
      var later := AlarmingLines(items[1..]);
      HitsAreLines(items[1..]);
      ShiftedSize(later);
      HitsOfFirst(items);
      var first: set<nat> := if IsAlarming(items[0]) then {0} else {};
      forall i: nat ensures i in AlarmingLines(items) <==> i in first + Shifted(later) {
        assert i > 0 && i < |items| ==> items[i] == items[1..][i - 1];
        assert i > 0 && i - 1 in later ==> (i - 1) + 1 in Shifted(later);
      }
      assert AlarmingLines(items) == first + Shifted(later);
    }
  }

  lemma NoHits()
    ensures SuspiciousHits(Strings([])) == 0
  {
  }

  lemma HitsOfFirst(items: seq<Value>)
    requires items != []
    ensures SuspiciousHits(Strings(items)) == (if IsAlarming(items[0]) then 1 else 0) + SuspiciousHits(Strings(items[1..]))
  {
    hide Contains, Lower;
    if items[0].Str? {
      assert Strings(items)[0] == items[0].text && Strings(items)[1..] == Strings(items[1..]);
    } else {
      assert Strings(items) == Strings(items[1..]);
    }
  }

  function Shifted(s: set<nat>): set<nat> {
    set i | i in s :: i + 1
  }

  lemma {:induction false} ShiftedSize(s: set<nat>)
    ensures |Shifted(s)| == |s|
  {
    if s != {} {
      var i :| i in s;
      ShiftedSize(s - {i});
      forall j ensures j in Shifted(s) <==> j in Shifted(s - {i}) + {i + 1} {
        assert j - 1 in s && j - 1 != i ==> j - 1 in s - {i};
      }
      assert Shifted(s) == Shifted(s - {i}) + {i + 1};
    }
  }

  lemma LinesAreDue(site: Site)
    requires !ReportsError(site.observation)
    ensures LogLines(site) == FindingOn(site, LogText)
  {
    hide SuspiciousHits, AlarmingLines, LabelFor;
    var lines := GetArray(site.observation, "lines");
    if lines.Some? {
      HitsAreLines(lines.value);
    }
  }

  lemma KeysAreDue(site: Site)
    requires !ReportsError(site.observation)
    ensures SshKeys(site) == FindingOn(site, AuthorizedKeys) + FindingOn(site, SshDirectories)
  {
    hide LabelFor, Graded;
    var o := site.observation;
    if GetCount(o, "total_authorized_keys_files").Some? {
      var n := GetCount(o, "total_authorized_keys_files").value;
      GradedByThree(n, [(3, High), (1, Medium)], Low);
    }
  }

  lemma CapturesAreDue(site: Site)
    requires !ReportsError(site.observation)
    ensures BaselineCaptured(site) == FindingOn(site, BaselineVersion) && HashCaptured(site) == FindingOn(site, Sha256)
  {
    hide LabelFor;
  }

  // ---- all of them ----

  lemma {:induction false} ListedConcat(site: Site, a: seq<Field>, b: seq<Field>)
    ensures Listed(site, a + b) == Listed(site, a) + Listed(site, b)
  {
    hide FindingOn;
    if a == [] {
      assert a + b == b;
    } else {
      ListedConcat(site, a[1..], b);
      assert (a + b)[1..] == a[1..] + b;
    }
  }

  lemma {:induction false} OnlyTheError(site: Site, fields: seq<Field>)
    requires ReportsError(site.observation) && CallError !in fields
    ensures Listed(site, fields) == []
  {
    if fields != [] {
      assert fields[0] in fields;
      OnlyTheError(site, fields[1..]);
    }
  }

  lemma ListedSnoc(site: Site, fields: seq<Field>, field: Field)
    ensures Listed(site, fields + [field]) == Listed(site, fields) + FindingOn(site, field)
    ensures Listed(site, [field]) == FindingOn(site, field)
  {
    hide FindingOn;
    ListedConcat(site, fields, [field]);
    assert [field][1..] == [];
  }

  lemma ListedPair(site: Site, fields: seq<Field>, a: Field, b: Field)
    ensures Listed(site, fields + [a, b]) == Listed(site, fields) + (FindingOn(site, a) + FindingOn(site, b))
  {
    hide FindingOn;
    ListedSnoc(site, [a], b);
    ListedSnoc(site, [], a);
    assert [a] + [b] == [a, b];
    ListedConcat(site, fields, [a, b]);
  }

  lemma ListedParts(site: Site)
    ensures Listed(site, FIELDS)
         == FindingOn(site, CallError) + FindingOn(site, Indicators) + FindingOn(site, Listeners) + FindingOn(site, BaselineVersion)
            + (FindingOn(site, Actionable) + FindingOn(site, Suspicious)) + Listed(site, DRIFT_FIELDS)
            + FindingOn(site, Sha256) + (FindingOn(site, AuthorizedKeys) + FindingOn(site, SshDirectories)) + FindingOn(site, LogText)
  {
    hide Listed, FindingOn, DRIFT_FIELDS;
    var first := [CallError, Indicators, Listeners, BaselineVersion];
    assert first == [CallError] + [Indicators] + [Listeners] + [BaselineVersion];
    ListedSnoc(site, [CallError], Indicators);
    ListedSnoc(site, [CallError] + [Indicators], Listeners);
    ListedSnoc(site, [CallError] + [Indicators] + [Listeners], BaselineVersion);
    ListedSnoc(site, [], CallError);
    var second := first + [Actionable, Suspicious];
    ListedPair(site, first, Actionable, Suspicious);
    ListedConcat(site, second, DRIFT_FIELDS);
    var third := second + DRIFT_FIELDS;
    ListedSnoc(site, third, Sha256);
    ListedPair(site, third + [Sha256], AuthorizedKeys, SshDirectories);
    ListedSnoc(site, third + [Sha256] + [AuthorizedKeys, SshDirectories], LogText);
  }

  /** What an observation yields is what the table says, field by field in its order. */
  lemma SiteFindingsAreDue(site: Site)
    ensures SiteFindings(site) == Listed(site, FIELDS)
  {
    hide FindingOn, Listed, FIELDS, DRIFT_FIELDS, ByCount, ByCounts, BaselineCaptured, PersistenceEntries, HashCaptured, SshKeys,
         LogLines, FailedCall;
    if ReportsError(site.observation) {
      ErrorIsDue(site);
    } else {
      OthersAreDue(site);
      ListedParts(site);
      assert FindingOn(site, CallError) + FindingOn(site, Indicators) == FindingOn(site, Indicators);
    }
  }

  lemma ErrorIsDue(site: Site)
    requires ReportsError(site.observation)
    ensures [FailedCall(site)] == Listed(site, FIELDS)
  {
    assert FIELDS == [CallError] + FIELDS[1..];
    ListedConcat(site, [CallError], FIELDS[1..]);
    ListedSnoc(site, [], CallError);
    OnlyTheError(site, FIELDS[1..]);
  }

  lemma OthersAreDue(site: Site)
    requires !ReportsError(site.observation)
    ensures FindingOn(site, CallError) == [] && ByCount(site, INDICATORS) == FindingOn(site, Indicators)
    ensures ByCount(site, LISTENERS) == FindingOn(site, Listeners) && BaselineCaptured(site) == FindingOn(site, BaselineVersion)
    ensures PersistenceEntries(site) == FindingOn(site, Actionable) + FindingOn(site, Suspicious)
    ensures ByCounts(site, DRIFT_RULES) == Listed(site, DRIFT_FIELDS) && HashCaptured(site) == FindingOn(site, Sha256)
    ensures SshKeys(site) == FindingOn(site, AuthorizedKeys) + FindingOn(site, SshDirectories)
    ensures LogLines(site) == FindingOn(site, LogText)
  {
    assert FindingOn(site, CallError) == [];
    RulesAgree();
    hide FindingOn, ByCount, ByCounts, BaselineCaptured, PersistenceEntries, HashCaptured, SshKeys, LogLines, Agrees, DRIFT_FIELDS;
    CountIsDue(site, INDICATORS, Indicators);
    CountIsDue(site, LISTENERS, Listeners);
    CapturesAreDue(site);
    PersistenceIsDue(site);
    DriftIsDue(site);
    KeysAreDue(site);
    LinesAreDue(site);
  }

  // ---- a whole run ----

  /** Some finding is due on the turn. */
  predicate Tells(t: Turn) {
    t.observation.Some? && exists field | field in FIELDS :: DueOn(field, t.observation.value).Some?
  }

  function TellingTools(turns: seq<Turn>): set<string> {
    set t | t in turns && Tells(t) && t.call.Some? :: t.call.value.tool
  }

  /** What several tools that found something, or failed, add to each other's confidence. */
  function BonusDue(turns: seq<Turn>): nat {
    var n := |TellingTools(turns)|;
    if n < 2 then 0 else if n == 2 then 3 else 5
  }

  predicate IsRightlyLabelled(f: Finding) {
    f.confidenceLabel
      == if f.confidence < 55 then Informational else if f.confidence < 72 then Possible else if f.confidence < 90 then Likely
         else Confirmed
  }

  /** The finding due on a field of the observation of turn `n`, counted from 1, with the bonus for
      corroboration. */
  predicate IsDue(f: Finding, turns: seq<Turn>, bonus: nat, n: nat, field: Field) {
    && 1 <= n <= |turns| && turns[n - 1].observation.Some?
    && var due := DueOn(field, turns[n - 1].observation.value);
       && due.Some? && f.quoted == due.value.quoted && f.severity == due.value.severity && f.relevance == Primary
       && f.confidence == Raised(due.value.confidence, field, turns[n - 1].call, bonus)
       && IsRightlyLabelled(f)
       && f.pointer == EvidencePointer(Some(n), ToolOf(turns[n - 1]), "observation." + Key(field))
  }

  /** Failed calls and turns without a call get no bonus. */
  function Raised(confidence: nat, field: Field, call: Option<ToolCall>, bonus: nat): nat {
    if field.CallError? || call.None? || bonus == 0 then confidence else Least(99, confidence + bonus)
  }

  lemma AllFields(field: Field)
    ensures field in FIELDS
  {
    assert FIELDS[0] == CallError && FIELDS[1] == Indicators && FIELDS[2] == Listeners && FIELDS[3] == BaselineVersion;
    assert FIELDS[4] == Actionable && FIELDS[5] == Suspicious && FIELDS[6] == NewEntries && FIELDS[7] == NonDefaultAccounts;
    assert FIELDS[8] == NewAccounts && FIELDS[9] == UnapprovedAccounts && FIELDS[10] == Exposed && FIELDS[11] == HighRisk;
    assert FIELDS[12] == UnknownProcesses && FIELDS[13] == RiskScore && FIELDS[14] == Sha256 && FIELDS[15] == AuthorizedKeys;
    assert FIELDS[16] == SshDirectories && FIELDS[17] == LogText;
  }

  lemma {:induction false} ListedMembers(site: Site, fields: seq<Field>)
    ensures forall f :: f in Listed(site, fields) <==> exists field :: field in fields && f in FindingOn(site, field)
  {
    hide FindingOn;
    if fields != [] {
      ListedMembers(site, fields[1..]);
      assert fields == [fields[0]] + fields[1..];
    }
  }

  lemma CollectedIsDue(turns: seq<Turn>, f: Finding) returns (n: nat, field: Field)
    requires f in Collected(turns)
    ensures IsDue(f, turns, 0, n, field)
  {
    CollectedMembers(turns);
    hide Collected, SiteFindings, Listed, DueOn, FIELDS, FindingOn, IsDue;
    var k :| 0 <= k < |turns| && f in TurnFindings(turns[k], k + 1);
    n := k + 1;
    SiteFindingsAreDue(SiteOf(turns, n));
    ListedMembers(SiteOf(turns, n), FIELDS);
    field :| field in FIELDS && f in FindingOn(SiteOf(turns, n), field);
    OnFieldIsDue(turns, f, n, field);
  }

  lemma OnFieldIsDue(turns: seq<Turn>, f: Finding, n: nat, field: Field)
    requires 1 <= n <= |turns| && turns[n - 1].observation.Some?
    ensures f in FindingOn(SiteOf(turns, n), field) <==> IsDue(f, turns, 0, n, field)
  {
    hide DueOn, Key;
  }

  lemma DueIsCollected(turns: seq<Turn>, f: Finding, n: nat, field: Field)
    requires IsDue(f, turns, 0, n, field)
    ensures f in Collected(turns)
  {
    CollectedMembers(turns);
    hide Collected, SiteFindings, Listed, DueOn, FIELDS;
    AllFields(field);
    SiteFindingsAreDue(SiteOf(turns, n));
    ListedMembers(SiteOf(turns, n), FIELDS);
    OnFieldIsDue(turns, f, n, field);
    assert f in TurnFindings(turns[n - 1], n);
  }

  // ---- no finding twice ----

  lemma NamesDiffer(a: Field, b: Field)
    requires Key(a) == Key(b)
    ensures a == b
  {
    assert |Key(a)| == |Key(b)| && Key(a)[0] == Key(b)[0];
  }

  /** No two findings have the same turn and field. */
  ghost predicate AllDiffer(findings: seq<Finding>) {
    forall i, j :: 0 <= i < j < |findings| ==>
      findings[i].pointer.turn != findings[j].pointer.turn || findings[i].pointer.field != findings[j].pointer.field
  }

  lemma FieldOfKey(a: Field, b: Field)
    requires "observation." + Key(a) == "observation." + Key(b)
    ensures a == b
  {
    hide Key;
    assert ("observation." + Key(a))[12..] == Key(a) && ("observation." + Key(b))[12..] == Key(b);
    NamesDiffer(a, b);
  }

  lemma {:induction false} ListedDiffer(site: Site, fields: seq<Field>)
    requires forall i, j :: 0 <= i < j < |fields| ==> fields[i] != fields[j]
    ensures AllDiffer(Listed(site, fields))
  {
    hide DueOn, Key;
    if fields != [] {
      var rest := fields[1..];
      ListedDiffer(site, rest);
      ListedMembers(site, rest);
      forall f, g | f in FindingOn(site, fields[0]) && g in Listed(site, rest) ensures f.pointer.field != g.pointer.field {
        var field :| field in rest && g in FindingOn(site, field);
        if f.pointer.field == g.pointer.field {
          FieldOfKey(fields[0], field);
        }
      }
    }
  }

  lemma FieldsDiffer()
    ensures forall i, j :: 0 <= i < j < |FIELDS| ==> FIELDS[i] != FIELDS[j]
  {
  }

  lemma TurnDiffers(t: Turn, n: nat)
    ensures AllDiffer(TurnFindings(t, n)) && forall f | f in TurnFindings(t, n) :: f.pointer.turn == Some(n)
  {
    hide SiteFindings, Listed, AllDiffer;
    if t.observation.Some? {
      var site := Site(n, ToolOf(t), t.observation.value);
      SiteFindingsAreDue(site);
      FieldsDiffer();
      ListedDiffer(site, FIELDS);
      ListedHere(site, FIELDS);
    } else {
      NothingDiffers();
    }
  }

  lemma NothingDiffers()
    ensures AllDiffer([])
  {
  }

  lemma {:induction false} CollectedDiffer(turns: seq<Turn>)
    ensures AllDiffer(Collected(turns))
  {
    if turns != [] {
      var n := |turns|;
      var front, last := Collected(turns[..n - 1]), TurnFindings(turns[n - 1], n);
      CollectedDiffer(turns[..n - 1]);
      TurnDiffers(turns[n - 1], n);
      hide TurnFindings, DueOn, Key, IsRightlyLabelled, Raised;
      forall f | f in front ensures f.pointer.turn != Some(n) {
        var k, field := CollectedIsDue(turns[..n - 1], f);
      }
    }
  }

  lemma ListedHere(site: Site, fields: seq<Field>)
    ensures forall f | f in Listed(site, fields) :: f.pointer.turn == Some(site.turn)
  {
    hide DueOn, Key;
    ListedMembers(site, fields);
  }

  // ---- the findings of a run ----

  lemma DueExists(turns: seq<Turn>, n: nat, field: Field) returns (f: Finding)
    requires 1 <= n <= |turns| && turns[n - 1].observation.Some? && DueOn(field, turns[n - 1].observation.value).Some?
    ensures IsDue(f, turns, 0, n, field) && f in Collected(turns)
  {
    hide DueOn, Collected, Key;
    f := FindingOn(SiteOf(turns, n), field)[0];
    DueIsCollected(turns, f, n, field);
  }

  lemma TellingTurn(turns: seq<Turn>, n: nat) returns (field: Field)
    requires 1 <= n <= |turns| && Tells(turns[n - 1])
    ensures turns[n - 1].observation.Some? && DueOn(field, turns[n - 1].observation.value).Some?
  {
    hide DueOn;
    field :| field in FIELDS && DueOn(field, turns[n - 1].observation.value).Some?;
  }

  lemma DueTells(turns: seq<Turn>, f: Finding, bonus: nat, n: nat, field: Field)
    requires IsDue(f, turns, bonus, n, field)
    ensures Tells(turns[n - 1]) && turns[n - 1] in turns
  {
    hide DueOn, Key, FIELDS;
    AllFields(field);
  }

  lemma NothingToTell(turns: seq<Turn>)
    ensures Collected(turns) == [] <==> forall t | t in turns :: !Tells(t)
  {
    hide Collected, Tells, IsDue, Key;
    if t :| t in turns && Tells(t) {
      var n :| 0 <= n < |turns| && turns[n] == t;
      var field := TellingTurn(turns, n + 1);
      var f := DueExists(turns, n + 1, field);
    }
    if Collected(turns) != [] {
      var f := Collected(turns)[0];
      var n, field := CollectedIsDue(turns, f);
      DueTells(turns, f, 0, n, field);
    }
  }

  lemma NamedAreTelling(turns: seq<Turn>)
    ensures ToolsNamed(OrFallback(Collected(turns))) == TellingTools(turns)
  {
    NothingToTell(turns);
    hide Collected, DueOn, Key, FIELDS;
    var named := ToolsNamed(OrFallback(Collected(turns)));
    forall tool | tool in named ensures tool in TellingTools(turns) {
      var f :| f in OrFallback(Collected(turns)) && f.pointer.tool == Some(tool);
      var n, field := CollectedIsDue(turns, f);
      DueTells(turns, f, 0, n, field);
    }
    forall tool | tool in TellingTools(turns) ensures tool in named {
      var t :| t in turns && Tells(t) && t.call.Some? && t.call.value.tool == tool;
      var n :| 0 <= n < |turns| && turns[n] == t;
      var field := TellingTurn(turns, n + 1);
      var f := DueExists(turns, n + 1, field);
      assert f in OrFallback(Collected(turns)) && f.pointer.tool == Some(tool);
    }
  }

  lemma RaisedIsAdjusted(turns: seq<Turn>, f: Finding, bonus: nat, n: nat, field: Field)
    requires IsDue(f, turns, 0, n, field) && f.confidence <= 98
    ensures IsDue(Adjusted(f, bonus), turns, bonus, n, field)
  {
    hide DueOn, Key, ERROR_FIELD;
    NameOfError(field);
  }

  lemma NameOfError(field: Field)
    ensures "observation." + Key(field) == ERROR_FIELD <==> field.CallError?
  {
    assert ERROR_FIELD == "observation." + Key(CallError);
    hide Key;
    if "observation." + Key(field) == ERROR_FIELD {
      FieldOfKey(field, CallError);
    }
  }

  lemma CountConfidence(field: Field, o: Value)
    requires IsCount(field)
    ensures DueForCount(field, o).Some? ==> DueForCount(field, o).value.confidence <= 98
  {
    hide Key, SeverityOf, ConfidenceOf, GetCount, CountOrZero;
    if GetCount(o, Key(field)).Some? && SeverityOf(field, GetCount(o, Key(field)).value).Some? {
      MoreIsNeverMilder(field, GetCount(o, Key(field)).value, GetCount(o, Key(field)).value);
    }
  }

  lemma DueConfidence(field: Field, o: Value)
    ensures DueOn(field, o).Some? ==> DueOn(field, o).value.confidence <= 98
  {
    hide AlarmingLines, DueForCount, GetCount, GetStr, GetArray, CountOrZero;
    if IsCount(field) {
      CountConfidence(field, o);
    }
  }

  /** A run of which nothing is to be told says just that. */
  lemma NothingFoundExactly(turns: seq<Turn>)
    ensures (forall t | t in turns :: !Tells(t))
      <==> Derived(turns) == [Finding([], Info, 55, Possible, Primary, EvidencePointer(None, None, "final_answer"))]
  {
    NothingToTell(turns);
    hide Collected, Tells, DueOn;
    if Collected(turns) != [] {
      var f := Collected(turns)[0];
      var n, field := CollectedIsDue(turns, f);
      assert Derived(turns)[0].pointer.turn == Some(n);
    }
  }

  /** Otherwise its findings are those due on the fields of its observations, no more, no fewer and none
      twice, with the bonus of the tools that had something to tell. */
  lemma FindingsAreThoseDue(turns: seq<Turn>)
    requires exists t :: t in turns && Tells(t)
    ensures forall f :: f in Derived(turns) <==> exists n, field :: IsDue(f, turns, BonusDue(turns), n, field)
    ensures AllDiffer(Derived(turns))
  {
    NothingToTell(turns);
    NamedAreTelling(turns);
    CollectedDiffer(turns);
    var found, derived, bonus := Collected(turns), Derived(turns), BonusDue(turns);
    assert |derived| == |found| && forall i :: 0 <= i < |found| ==> derived[i] == Adjusted(found[i], bonus);
    hide Collected, Derived, Tells, DueOn, Adjusted, IsDue;
    forall f | f in derived ensures exists n, field :: IsDue(f, turns, bonus, n, field) {
      var i :| 0 <= i < |found| && derived[i] == f;
      var n, field := CollectedIsDue(turns, found[i]);
      RaisedDue(turns, found[i], bonus, n, field);
    }
    forall f, n, field | IsDue(f, turns, bonus, n, field) ensures f in derived {
      DueIsDerived(turns, f, n, field);
    }
    forall i, j | 0 <= i < j < |derived|
      ensures derived[i].pointer.turn != derived[j].pointer.turn || derived[i].pointer.field != derived[j].pointer.field
    {
      AdjustedPointer(found[i], bonus);
      AdjustedPointer(found[j], bonus);
    }
  }

  lemma AdjustedPointer(f: Finding, bonus: nat)
    ensures Adjusted(f, bonus).pointer == f.pointer
  {
  }

  lemma RaisedDue(turns: seq<Turn>, f: Finding, bonus: nat, n: nat, field: Field)
    requires IsDue(f, turns, 0, n, field)
    ensures IsDue(Adjusted(f, bonus), turns, bonus, n, field)
  {
    hide DueOn, Adjusted, Key;
    DueConfidence(field, turns[n - 1].observation.value);
    RaisedIsAdjusted(turns, f, bonus, n, field);
  }

  /** There is only one. */
  lemma DueIsUnique(turns: seq<Turn>, f: Finding, g: Finding, bonus: nat, n: nat, field: Field)
    requires IsDue(f, turns, bonus, n, field) && IsDue(g, turns, bonus, n, field)
    ensures f == g
  {
    hide DueOn, Key;
  }

  lemma DueIsDerived(turns: seq<Turn>, f: Finding, n: nat, field: Field)
    requires IsDue(f, turns, BonusDue(turns), n, field)
    ensures f in Derived(turns)
  {
    hide Collected, DueOn, Adjusted, Key, Tells;
    NamedAreTelling(turns);
    var g := DueExists(turns, n, field);
    var bonus := BonusDue(turns);
    RaisedDue(turns, g, bonus, n, field);
    DueIsUnique(turns, f, Adjusted(g, bonus), bonus, n, field);
    var found := Collected(turns);
    var i :| 0 <= i < |found| && found[i] == g;
    assert Derived(turns)[i] == Adjusted(found[i], bonus);
  }

  // ---- the report ----

  const FIRST_CHOICE := {"correlate_process_network", "audit_account_changes"}
  const SECOND_CHOICE := FIRST_CHOICE + {"inspect_persistence_locations"}
  const THIRD_CHOICE := SECOND_CHOICE + {"scan_network", "check_privilege_escalation_vectors"}

  predicate IsFrom(f: Finding, tools: set<string>) {
    f.pointer.tool.Some? && f.pointer.tool.value in tools
  }

  lemma AuthorityIs(tool: Option<string>)
    ensures Authority(tool) >= 3 <==> tool.Some? && tool.value in FIRST_CHOICE
    ensures Authority(tool) >= 2 <==> tool.Some? && tool.value in SECOND_CHOICE
    ensures Authority(tool) >= 1 <==> tool.Some? && tool.value in THIRD_CHOICE
    ensures Authority(tool) <= 3
  {
  }

  /** Of several findings on one field a report keeps one of the tool that looks closest, and of these
      the one with the greatest confidence. */
  lemma KeptToolComesFirst(turns: seq<Turn>, f: Finding, g: Finding)
    requires f in Report(turns) && g in Derived(turns) && f.pointer.field == g.pointer.field
    requires f.pointer.field != "final_answer" && f.pointer.field != "observation.error"
    ensures IsFrom(g, FIRST_CHOICE) ==> IsFrom(f, FIRST_CHOICE)
    ensures IsFrom(g, SECOND_CHOICE) ==> IsFrom(f, SECOND_CHOICE)
    ensures IsFrom(g, THIRD_CHOICE) ==> IsFrom(f, THIRD_CHOICE)
    ensures g.confidence <= f.confidence || (IsFrom(f, FIRST_CHOICE) && !IsFrom(g, FIRST_CHOICE))
            || (IsFrom(f, SECOND_CHOICE) && !IsFrom(g, SECOND_CHOICE)) || (IsFrom(f, THIRD_CHOICE) && !IsFrom(g, THIRD_CHOICE))
  {
    FieldsNotExempt(f);
    hide Exempt, Authority, Report, Derived;
    var k := ReportedChampion(turns, f);
    AuthorityIs(f.pointer.tool);
    AuthorityIs(g.pointer.tool);
    hide FIRST_CHOICE, SECOND_CHOICE, THIRD_CHOICE;
    var derived := Derived(turns);
    var j :| 0 <= j < |derived| && derived[j] == g;
    assert SameField(derived[j], derived[k]);
  }

  lemma FieldsNotExempt(f: Finding)
    ensures Exempt(f) <==> f.pointer.field == "final_answer" || f.pointer.field == "observation.error"
  {
    assert "observation." + "error" == "observation.error";
  }

  /** Every field of the observations on which something is due is reported, and just one finding on it. */
  lemma DueFieldIsReported(turns: seq<Turn>, n: nat, field: Field) returns (f: Finding)
    requires 1 <= n <= |turns| && turns[n - 1].observation.Some? && DueOn(field, turns[n - 1].observation.value).Some?
    requires !field.CallError?
    ensures f in Report(turns) && f.pointer.field == "observation." + Key(field)
    ensures forall g | g in Report(turns) && g.pointer.field == f.pointer.field :: g == f
  {
    hide DueOn, Key, Report, Derived, Collected, Adjusted, IsDue, Exempt;
    var g := DueExists(turns, n, field);
    var h := Adjusted(g, BonusDue(turns));
    RaisedDue(turns, g, BonusDue(turns), n, field);
    DueIsDerived(turns, h, n, field);
    DueFieldIs(turns, h, BonusDue(turns), n, field);
    f := FieldIsKept(turns, h);
    FieldsNotExempt(h);
    FieldsNotExempt(f);
    forall g | g in Report(turns) && g.pointer.field == f.pointer.field ensures g == f {
      OneIsReported(turns, f, g);
    }
  }

  lemma DueFieldIs(turns: seq<Turn>, f: Finding, bonus: nat, n: nat, field: Field)
    requires IsDue(f, turns, bonus, n, field) && !field.CallError?
    ensures f.pointer.field == "observation." + Key(field) && !Exempt(f)
  {
    FieldsNotExempt(f);
    hide DueOn, Key;
    NameOfError(field);
    assert f.pointer.field[0] == 'o' && FINAL_ANSWER[0] == 'f';
  }

  lemma OneIsReported(turns: seq<Turn>, f: Finding, g: Finding)
    requires f in Report(turns) && g in Report(turns) && f.pointer.field == g.pointer.field
    requires !Exempt(f)
    ensures f == g
  {
    hide Report, Derived, Exempt, Beats, IsChampion;
    FieldsNotExempt(f);
    FieldsNotExempt(g);
    var j := ReportedChampion(turns, f);
    var k := ReportedChampion(turns, g);
    ChampionIsUnique(Derived(turns), j, k);
  }

  lemma ChampionIsUnique(findings: seq<Finding>, j: nat, k: nat)
    requires IsChampion(findings, j) && IsChampion(findings, k) && SameField(findings[j], findings[k])
    ensures j == k
  {
    hide Beats;
  }

  /** A report begins with what is most severe. */
  lemma MostSevereFirst(turns: seq<Turn>)
    ensures forall i, j :: 0 <= i < j < |Report(turns)| ==>
      && IsAtLeast(Report(turns)[i].severity, Report(turns)[j].severity)
      && (Report(turns)[i].severity == Report(turns)[j].severity ==>
            Report(turns)[i].confidence >= Report(turns)[j].confidence)
  {
    hide Derived, Deduplicated, Sorted, SameRanks;
    SortedIsStableSort(Deduplicated(Derived(turns)));
    assert IsSorted(Report(turns));
    forall i, j | 0 <= i < j < |Report(turns)|
      ensures !Outranks(Report(turns)[j], Report(turns)[i])
    {
    }
  }
}
