/** The investigation templates and the choice among them (core_engine/src/lib.rs and
    core_engine/src/agent.rs for investigations, inference_bridge/src/lib.rs for dry runs). */
module InvestigationTemplates {
  import opened Wrappers
  import opened Text
  import opened WordMatch

  datatype Template = Template(name: string, keywords: seq<string>, tools: seq<string>)

  const BROAD_TOOLS := ["audit_account_changes", "inspect_persistence_locations", "read_syslog", "scan_network",
                        "check_privilege_escalation_vectors"]

  const SSH_TOOLS := ["enumerate_ssh_keys", "audit_account_changes", "inspect_persistence_locations",
                      "check_privilege_escalation_vectors"]

  const PERSISTENCE_TOOLS := ["inspect_persistence_locations", "audit_account_changes", "read_syslog"]

  const NETWORK_TOOLS := ["scan_network", "correlate_process_network", "audit_account_changes"]

  const PRIVILEGE_TOOLS := ["check_privilege_escalation_vectors", "audit_account_changes", "inspect_persistence_locations"]

  const SSH_KEYWORDS := ["ssh", "authorized_keys", "key"]
  const PERSISTENCE_KEYWORDS := ["persistence", "autorun", "startup", "cron", "scheduled"]
  const NETWORK_KEYWORDS := ["network", "connection", "port", "listen", "listener", "lateral", "beacon", "socket"]
  const PRIVILEGE_KEYWORDS := ["privilege", "escalat", "admin", "root", "sudo", "unauthori"]
  const INTEGRITY_KEYWORDS := ["hash", "integrity", "checksum", "binary", "tamper"]
  const LOG_KEYWORDS := ["log", "syslog", "journal", "event", "audit"]

  const BUILTIN_TEMPLATES := [
    Template("broad-host-triage", [], BROAD_TOOLS),
    Template("ssh-key-investigation", SSH_KEYWORDS, SSH_TOOLS),
    Template("persistence-analysis", PERSISTENCE_KEYWORDS, PERSISTENCE_TOOLS),
    Template("network-exposure-audit", NETWORK_KEYWORDS, NETWORK_TOOLS),
    Template("privilege-escalation-check", PRIVILEGE_KEYWORDS, PRIVILEGE_TOOLS),
    Template("file-integrity-check", INTEGRITY_KEYWORDS,
             ["hash_binary", "inspect_persistence_locations"]),
    Template("syslog-analysis", LOG_KEYWORDS,
             ["read_syslog", "audit_account_changes", "inspect_persistence_locations"])
  ]

  const DRY_RUN_TEMPLATES := [
    Template("baseline-capture", ["capture", "snapshot", "collect", "coverage", "baseline", "golden"],
             ["capture_coverage_baseline"]),
    Template("file-integrity", ["hash", "sha256", "checksum", "integrity", "tamper"],
             ["hash_binary", "inspect_persistence_locations"]),
    Template("syslog-summary", ["log", "syslog", "journal"], ["read_syslog", "audit_account_changes"]),
    Template("account-audit", ["account", "user", "group", "member", "drift"],
             ["audit_account_changes", "inspect_persistence_locations", "check_privilege_escalation_vectors"]),
    Template("baseline-drift", ["drift", "baseline", "deviation"],
             ["correlate_process_network", "audit_account_changes", "inspect_persistence_locations"]),
    Template("process-network", ["correlat", "process", "network"],
             ["correlate_process_network", "scan_network", "audit_account_changes"]),
    Template("ssh-key-investigation", SSH_KEYWORDS, SSH_TOOLS),
    Template("persistence-analysis", PERSISTENCE_KEYWORDS, PERSISTENCE_TOOLS),
    Template("network-exposure-audit", NETWORK_KEYWORDS, NETWORK_TOOLS),
    Template("privilege-escalation",
             ["privilege", "escalat", "admin", "root", "sudo", "whoami", "unauthori"], PRIVILEGE_TOOLS)
  ]

  // ---- scores ----

  /** How many of the keywords the test accepts. */
  function Score(keywords: seq<string>, test: string -> bool): nat {
    if keywords == [] then 0
    else Score(keywords[..|keywords| - 1], test) + if test(keywords[|keywords| - 1]) then 1 else 0
  }

  function Scores(templates: seq<Template>, test: string -> bool): (scores: seq<nat>)
    ensures |scores| == |templates|
  {
    seq(|templates|, i requires 0 <= i < |templates| => Score(templates[i].keywords, test))
  }

  /** The earliest of the greatest scores, if any is positive. */
  function EarliestBest(scores: seq<nat>): (r: Option<nat>)
    ensures r.None? <==> forall i :: 0 <= i < |scores| ==> scores[i] == 0
    ensures r.Some? ==>
      && r.value < |scores| && scores[r.value] > 0
      && (forall i :: 0 <= i < r.value ==> scores[i] < scores[r.value])
      && (forall i :: r.value < i < |scores| ==> scores[i] <= scores[r.value])
  {
    if scores == [] then None
    else
      var n := |scores| - 1;
      var best := EarliestBest(scores[..n]);
      if scores[n] > 0 && (best.None? || scores[n] > scores[best.value]) then Some(n) else best
  }

  predicate KeywordStands(text: string, keyword: string) {
    keyword != "" && ScanFinds(text, keyword, 0)
  }

  method CountStandalone(text: string, keywords: seq<string>) returns (score: nat)
    requires forall k | k in keywords :: k != ""
    ensures score == Score(keywords, k => KeywordStands(text, k))
  {
    score := 0;
    for i := 0 to |keywords|
      invariant score == Score(keywords[..i], k => KeywordStands(text, k))
    {
      assert keywords[i] in keywords;
      var found := HasWord(text, keywords[i]);
      if found {
        score := score + 1;
      }
      assert keywords[..i + 1][..i] == keywords[..i];
    }
    assert keywords[..|keywords|] == keywords;
  }

  /** The template of the earliest greatest score; the first of all if every score is zero. `lower`
      is the task in lower case. */
  method ResolveInvestigationTemplate(templates: seq<Template>, lower: string) returns (selected: Template)
    requires templates != [] && forall t | t in templates :: forall k | k in t.keywords :: k != ""
    ensures var best := EarliestBest(Scores(templates, k => KeywordStands(lower, k)));
            selected == templates[if best.Some? then best.value else 0]
  {
    ghost var scores := Scores(templates, k => KeywordStands(lower, k));
    var best: Option<(nat, nat)> := None;
    for i := 0 to |templates|
      invariant EarliestBest(scores[..i]) == if best.Some? then Some(best.value.0) else None
      invariant best.Some? ==> best.value.0 < i && best.value.1 == scores[best.value.0]
    {
      assert scores[..i + 1][..i] == scores[..i];
      if templates[i].keywords == [] {
        continue;
      }
      var score := CountStandalone(lower, templates[i].keywords);
      if score > 0 {
        if best.Some? {
          if score > best.value.1 {
            best := Some((i, score));
          }
        } else {
          best := Some((i, score));
        }
      }
    }
    assert scores[..|templates|] == scores;
    selected := templates[if best.Some? then best.value.0 else 0];
  }

  function ToolsFor(templates: seq<Template>, fallback: seq<string>, lower: string): seq<string> {
    var best := EarliestBest(Scores(templates, k => Contains(lower, k)));
    if best.Some? then templates[best.value].tools else fallback
  }

  /** The dry run scores substrings, and its fallback is not one of the templates. */
  method ResolveDryRunTemplate(templates: seq<Template>, fallback: seq<string>, lower: string) returns (tools: seq<string>)
    ensures tools == ToolsFor(templates, fallback, lower)
  {
    ghost var scores := Scores(templates, k => Contains(lower, k));
    var best: Option<(nat, nat)> := None;
    for i := 0 to |templates|
      invariant EarliestBest(scores[..i]) == if best.Some? then Some(best.value.0) else None
      invariant best.Some? ==> best.value.0 < i && best.value.1 == scores[best.value.0]
    {
      assert scores[..i + 1][..i] == scores[..i];
      var score := Score(templates[i].keywords, k => Contains(lower, k));
      if score > 0 && (best.None? || score > best.value.1) {
        best := Some((i, score));
      }
    }
    assert scores[..|templates|] == scores;
    tools := if best.Some? then templates[best.value.0].tools else fallback;
  }

  function DryRunTools(lower: string): (tools: seq<string>)
    ensures 1 <= |tools| <= 5
  {
    hide Scores;
    ToolsFor(DRY_RUN_TEMPLATES, BROAD_TOOLS, lower)
  }

  // ---- the built-in keywords ----

  ghost predicate KeywordsAreExact(keywords: seq<string>) {
    forall k | k in keywords :: k != "" && OverlapsInsideWords(k)
  }

  lemma ExactKeywords(keywords: seq<string>)
    requires forall k | k in keywords :: k != "" && (AllAlphanumeric(k) || FirstDoesNotRecur(k))
    ensures KeywordsAreExact(keywords)
  {
    forall k | k in keywords ensures OverlapsInsideWords(k) {
      PlainWordsAreExact(k);
    }
  }

  lemma PersistenceKeywordsAreAlphanumeric()
    ensures forall k | k in PERSISTENCE_KEYWORDS :: k != "" && AllAlphanumeric(k)
  {
  }

  lemma NetworkKeywordsAreAlphanumeric()
    ensures forall k | k in NETWORK_KEYWORDS :: k != "" && AllAlphanumeric(k)
  {
  }

  lemma PrivilegeKeywordsAreAlphanumeric()
    ensures forall k | k in PRIVILEGE_KEYWORDS :: k != "" && AllAlphanumeric(k)
  {
  }

  lemma IntegrityKeywordsAreAlphanumeric()
    ensures forall k | k in INTEGRITY_KEYWORDS :: k != "" && AllAlphanumeric(k)
  {
  }

  lemma LogKeywordsAreAlphanumeric()
    ensures forall k | k in LOG_KEYWORDS :: k != "" && AllAlphanumeric(k)
  {
  }

  lemma SshKeywordsAreExact()
    ensures KeywordsAreExact(SSH_KEYWORDS)
  {
    assert AllAlphanumeric(SSH_KEYWORDS[0]) && FirstDoesNotRecur(SSH_KEYWORDS[1]) && AllAlphanumeric(SSH_KEYWORDS[2]);
    hide AllAlphanumeric, FirstDoesNotRecur;
    ExactKeywords(SSH_KEYWORDS);
  }

  lemma BuiltinKeywordsAreExact()
    ensures forall t | t in BUILTIN_TEMPLATES :: KeywordsAreExact(t.keywords)
  {
    PersistenceKeywordsAreAlphanumeric();
    NetworkKeywordsAreAlphanumeric();
    PrivilegeKeywordsAreAlphanumeric();
    IntegrityKeywordsAreAlphanumeric();
    LogKeywordsAreAlphanumeric();
    SshKeywordsAreExact();
    hide KeywordsAreExact, AllAlphanumeric, FirstDoesNotRecur;
    ExactKeywords([]);
    ExactKeywords(PERSISTENCE_KEYWORDS);
    ExactKeywords(NETWORK_KEYWORDS);
    ExactKeywords(PRIVILEGE_KEYWORDS);
    ExactKeywords(INTEGRITY_KEYWORDS);
    ExactKeywords(LOG_KEYWORDS);
  }

  lemma SameScore(keywords: seq<string>, a: string -> bool, b: string -> bool)
    requires forall k | k in keywords :: a(k) == b(k)
    ensures Score(keywords, a) == Score(keywords, b)
  {
  }

  /** The investigation chosen is that of the earliest greatest number of keywords that stand alone
      somewhere in the task; the broad one if none does. */
  lemma ChoiceCountsStandaloneWords(lower: string)
    ensures Scores(BUILTIN_TEMPLATES, k => KeywordStands(lower, k)) == Scores(BUILTIN_TEMPLATES, k => StandsAlone(lower, k))
  {
    BuiltinKeywordsAreExact();
    forall i | 0 <= i < |BUILTIN_TEMPLATES|
      ensures Score(BUILTIN_TEMPLATES[i].keywords, k => KeywordStands(lower, k))
           == Score(BUILTIN_TEMPLATES[i].keywords, k => StandsAlone(lower, k))
    {
      var keywords := BUILTIN_TEMPLATES[i].keywords;
      assert BUILTIN_TEMPLATES[i] in BUILTIN_TEMPLATES;
      forall k | k in keywords ensures KeywordStands(lower, k) == StandsAlone(lower, k) {
        ScanSkipsNothing(lower, k, 0);
      }
      SameScore(keywords, k => KeywordStands(lower, k), k => StandsAlone(lower, k));
    }
  }

  /** The index of the template chosen among the built-in ones. */
  function Chosen(lower: string): nat {
    var best := EarliestBest(Scores(BUILTIN_TEMPLATES, k => KeywordStands(lower, k)));
    if best.Some? then best.value else 0
  }

  /** The broad template, if and only if no keyword of any template stands alone in the task. */
  lemma BroadTriageExactly(lower: string)
    ensures Chosen(lower) < |BUILTIN_TEMPLATES|
    ensures Chosen(lower) == 0 <==>
      forall t | t in BUILTIN_TEMPLATES :: forall k | k in t.keywords :: !StandsAlone(lower, k)
    ensures BUILTIN_TEMPLATES[Chosen(lower)] == BUILTIN_TEMPLATES[0] <==> Chosen(lower) == 0
  {
    ChoiceCountsStandaloneWords(lower);
    NamesAreDistinct();
    var scores := Scores(BUILTIN_TEMPLATES, k => StandsAlone(lower, k));
    assert scores[0] == 0 by {
      assert BUILTIN_TEMPLATES[0].keywords == [];
    }
    hide BUILTIN_TEMPLATES;
    forall i | 0 <= i < |BUILTIN_TEMPLATES|
      ensures scores[i] == 0 <==> forall k | k in BUILTIN_TEMPLATES[i].keywords :: !StandsAlone(lower, k)
    {
      ScoreIsZeroExactly(BUILTIN_TEMPLATES[i].keywords, k => StandsAlone(lower, k));
    }
  }

  lemma NamesAreDistinct()
    ensures forall i :: 0 < i < |BUILTIN_TEMPLATES| ==> BUILTIN_TEMPLATES[i] != BUILTIN_TEMPLATES[0]
  {
    assert forall i :: 0 < i < |BUILTIN_TEMPLATES| ==> |BUILTIN_TEMPLATES[i].keywords| > 0;
    assert |BUILTIN_TEMPLATES[0].keywords| == 0;
  }

  lemma {:induction false} ScoreIsZeroExactly(keywords: seq<string>, test: string -> bool)
    ensures Score(keywords, test) == 0 <==> forall k | k in keywords :: !test(k)
  {
    if keywords != [] {
      var n := |keywords| - 1;
      ScoreIsZeroExactly(keywords[..n], test);
      assert keywords == keywords[..n] + [keywords[n]];
    }
  }
}
