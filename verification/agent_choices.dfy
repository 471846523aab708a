/** What the agent does without asking a model (core_engine/src/agent.rs): which tasks it turns down, which
    tools it picks for a task, and what running them yields. */
module AgentChoices {
  import opened Wrappers
  import opened Text
  import opened Json
  import opened WordMatch
  import opened InvestigationTemplates
  import opened Findings
  import opened FindingReport
  import opened CoverageBaselines
  import opened Agents

  /** One of the words stands alone in the text. */
  predicate Mentions(text: string, words: seq<string>) {
    exists i :: 0 <= i < |words| && StandsAlone(text, words[i])
  }

  /** Plain words, which the scan does not overlook. */
  predicate AreWords(words: seq<string>) {
    forall i :: 0 <= i < |words| ==> words[i] != "" && AllAlphanumeric(words[i])
  }

  lemma ScanMentions(text: string, words: seq<string>)
    requires AreWords(words)
    ensures (exists k | k in words :: KeywordStands(text, k)) <==> Mentions(text, words)
  {
    hide AllAlphanumeric, StandsAlone, ScanFinds;
    forall i | 0 <= i < |words| ensures KeywordStands(text, words[i]) <==> StandsAlone(text, words[i]) {
      PlainWordsAreExact(words[i]);
      ExactScan(text, words[i]);
    }
  }

  lemma ExactScan(text: string, word: string)
    requires word != "" && OverlapsInsideWords(word)
    ensures ScanFinds(text, word, 0) <==> StandsAlone(text, word)
  {
    ScanSkipsNothing(text, word, 0);
  }

  // ---- scope ----

  lemma ScopeWordsArePlain()
    ensures AreWords(IN_SCOPE_KEYWORDS) && AreWords(OUT_OF_SCOPE_INDICATORS)
  {
  }

  /** A task is turned down, with one finding and without a tool or a question, exactly if a word for something
      that is not on the host stands alone in it, and none for something that is. */
  method RunScoped<S>(a: Agent, brain: Brain<S>, task: string, initial: S) returns (r: Result<RunReport, string>, s: S, asked: nat)
    ensures var text := a.lower(task);
      var refused := Mentions(text, ["cloud", "aws", "azure", "gcp", "s3", "iam", "kubernetes", "container", "api", "email",
                                     "phishing", "siem"])
                     && !Mentions(text, ["host", "account", "persistence", "network", "process", "privilege", "ssh", "listener",
                                         "port", "autorun", "hash", "integrity", "log"]);
      && (refused ==>
            && s == initial && asked == 0 && r.Success? && r.value.turns == [] && r.value.maxSeverity == Some(Info)
            && r.value.findings == [Finding([], Info, 100, Confirmed, Primary, EvidencePointer(None, None, "scope_check"))])
      && (!refused && r.Success? ==> r.value.findings == Report(r.value.turns))
  {
    hide Investigated, Report, Mentions, AreWords, KeywordStands;
    ScopeWordsArePlain();
    ScanMentions(a.lower(task), IN_SCOPE_KEYWORDS);
    ScanMentions(a.lower(task), OUT_OF_SCOPE_INDICATORS);
    r, s, asked := Agents.Run<S>(a, brain, task, initial);
  }

  // ---- the tools of a task ----

  /** What a word in a task is about. */
  datatype Topic = SshKeys | Persistence | Network | Privileges | Integrity | Logs

  function WordsOf(topic: Topic): seq<string> {
    match topic
    case SshKeys => ["ssh", "authorized_keys", "key"]
    case Persistence => ["persistence", "autorun", "startup", "cron", "scheduled"]
    case Network => ["network", "connection", "port", "listen", "listener", "lateral", "beacon", "socket"]
    case Privileges => ["privilege", "escalat", "admin", "root", "sudo", "unauthori"]
    case Integrity => ["hash", "integrity", "checksum", "binary", "tamper"]
    case Logs => ["log", "syslog", "journal", "event", "audit"]
  }

  function ToolsOn(topic: Topic): seq<string> {
    match topic
    case SshKeys =>
      ["enumerate_ssh_keys", "audit_account_changes", "inspect_persistence_locations", "check_privilege_escalation_vectors"]
    case Persistence => ["inspect_persistence_locations", "audit_account_changes", "read_syslog"]
    case Network => ["scan_network", "correlate_process_network", "audit_account_changes"]
    case Privileges => ["check_privilege_escalation_vectors", "audit_account_changes", "inspect_persistence_locations"]
    case Integrity => ["hash_binary", "inspect_persistence_locations"]
    case Logs => ["read_syslog", "audit_account_changes", "inspect_persistence_locations"]
  }

  function IndexOf(topic: Topic): nat {
    match topic
    case SshKeys => 1
    case Persistence => 2
    case Network => 3
    case Privileges => 4
    case Integrity => 5
    case Logs => 6
  }

  function TopicAt(i: nat): (topic: Topic)
    requires 1 <= i <= 6
    ensures IndexOf(topic) == i
  {
    if i == 1 then SshKeys else if i == 2 then Persistence else if i == 3 then Network else if i == 4 then Privileges
    else if i == 5 then Integrity else Logs
  }

  lemma TemplatesAreTopics(topic: Topic)
    ensures |BUILTIN_TEMPLATES| == 7 && 1 <= IndexOf(topic) <= 6
    ensures BUILTIN_TEMPLATES[IndexOf(topic)].keywords == WordsOf(topic)
    ensures BUILTIN_TEMPLATES[IndexOf(topic)].tools == ToolsOn(topic)
  {
  }

  /** How many of the words stand alone in the text. */
  function MentionCount(text: string, words: seq<string>): nat {
    |set i | 0 <= i < |words| && StandsAlone(text, words[i])|
  }

  lemma {:induction false} ScoreIsCount(text: string, words: seq<string>)
    ensures Score(words, k => StandsAlone(text, k)) == MentionCount(text, words)
  {
    hide StandsAlone;
    var places := set i | 0 <= i < |words| && StandsAlone(text, words[i]);
    if words == [] {
      assert places == {};
    } else {
      var n := |words| - 1;
      var before := set i | 0 <= i < n && StandsAlone(text, words[..n][i]);
      ScoreIsCount(text, words[..n]);
      assert places == before + if StandsAlone(text, words[n]) then {n} else {};
    }
  }

  /** The tools are those of the topic of which most words stand alone in the task, the first such topic;
      and the broad five if there is no such word. */
  lemma TopicDecides(a: Agent, task: string)
    ensures var text, tools := a.lower(task), ChosenTemplate(a, task).tools;
      if forall topic: Topic :: MentionCount(text, WordsOf(topic)) == 0
      then tools == ["audit_account_changes", "inspect_persistence_locations", "read_syslog", "scan_network",
                     "check_privilege_escalation_vectors"]
      else exists topic: Topic :: tools == ToolsOn(topic) && forall other: Topic ::
        && MentionCount(text, WordsOf(other)) <= MentionCount(text, WordsOf(topic))
        && (IndexOf(other) < IndexOf(topic) ==> MentionCount(text, WordsOf(other)) < MentionCount(text, WordsOf(topic)))
  {
    var text := a.lower(task);
    TopicScores(text);
    hide Scores, MentionCount, WordsOf, ToolsOn, BUILTIN_TEMPLATES, StandsAlone, KeywordStands;
    var scores := Scores(BUILTIN_TEMPLATES, k => KeywordStands(text, k));
    var best := EarliestBest(scores);
    assert ChosenTemplate(a, task) == BUILTIN_TEMPLATES[if best.Some? then best.value else 0] && |scores| == 7;
    if best.None? {
      BroadTools();
    } else {
      var topic := TopicAt(best.value);
      TemplatesAreTopics(topic);
      hide IndexOf;
      assert scores[IndexOf(topic)] > 0;
    }
  }

  lemma TopicScores(text: string)
    ensures var scores := Scores(BUILTIN_TEMPLATES, k => KeywordStands(text, k));
      && |scores| == 7 && scores[0] == 0
      && forall topic: Topic :: 1 <= IndexOf(topic) <= 6 && scores[IndexOf(topic)] == MentionCount(text, WordsOf(topic))
  {
    ChoiceCountsStandaloneWords(text);
    NoBroadWords(text);
    hide MentionCount, BUILTIN_TEMPLATES, StandsAlone, KeywordStands;
    forall topic: Topic
      ensures 1 <= IndexOf(topic) <= 6
      ensures Scores(BUILTIN_TEMPLATES, k => KeywordStands(text, k))[IndexOf(topic)] == MentionCount(text, WordsOf(topic))
    {
      TemplatesAreTopics(topic);
      ScoreIsCount(text, WordsOf(topic));
    }
  }

  lemma NoBroadWords(text: string)
    ensures |BUILTIN_TEMPLATES| == 7 && Score(BUILTIN_TEMPLATES[0].keywords, k => KeywordStands(text, k)) == 0
  {
  }

  lemma BroadTools()
    ensures |BUILTIN_TEMPLATES| == 7
    ensures BUILTIN_TEMPLATES[0].tools == ["audit_account_changes", "inspect_persistence_locations", "read_syslog", "scan_network",
                                           "check_privilege_escalation_vectors"]
  {
  }

  // ---- running them ----

  /** The places of the tools that can be run. */
  ghost predicate AreRunnable(a: Agent, tools: seq<string>, places: seq<nat>) {
    && (forall k :: 0 <= k < |places| ==> places[k] < |tools|)
    && (forall j, k :: 0 <= j < k < |places| ==> places[j] < places[k])
    && (forall i :: 0 <= i < |tools| ==> (i in places <==> tools[i] != "read_syslog" || a.canReadSyslog))
  }

  /** Turn `k` runs the tool with the baseline for it, and observes what came of that or the error. */
  ghost predicate IsRunOf(a: Agent, t: Turn, k: nat, tool: string) {
    var call := WithBaseline(a.baseline, ToolCall(tool, Object(map[])));
    t == Turn(Some(call), Some(match a.execute(k, call)
                               case Success(value) => value
                               case Failure(message) => Object(map["error" := Str(message)])))
  }

  /** The turns run the tools at these places. */
  ghost predicate RunAt(a: Agent, turns: seq<Turn>, tools: seq<string>, places: seq<nat>) {
    |turns| == |places| && forall k :: 0 <= k < |turns| ==> places[k] < |tools| && IsRunOf(a, turns[k], k, tools[places[k]])
  }

  /** The turns run the tools that can be run, in their order. */
  ghost predicate FollowTools(a: Agent, turns: seq<Turn>, tools: seq<string>, places: seq<nat>) {
    AreRunnable(a, tools, places) && RunAt(a, turns, tools, places)
  }

  lemma RunnableSnoc(a: Agent, front: seq<string>, tool: string, before: seq<nat>)
    requires AreRunnable(a, front, before)
    ensures AreRunnable(a, front + [tool], if PreconditionMet(a, tool) then before + [|front|] else before)
  {
    var places := if PreconditionMet(a, tool) then before + [|front|] else before;
    forall i | 0 <= i < |front| + 1
      ensures i in places <==> (front + [tool])[i] != "read_syslog" || a.canReadSyslog
    {
      if i < |front| {
        assert (front + [tool])[i] == front[i];
        assert i in places <==> i in before;
      } else {
        assert i !in before;
      }
    }
  }

  lemma RunAtLonger(a: Agent, turns: seq<Turn>, front: seq<string>, tool: string, before: seq<nat>)
    requires RunAt(a, turns, front, before)
    ensures RunAt(a, turns, front + [tool], before)
  {
    hide IsRunOf;
    forall k | 0 <= k < |turns| ensures before[k] < |front| + 1 && IsRunOf(a, turns[k], k, (front + [tool])[before[k]]) {
      assert before[k] < |front| && (front + [tool])[before[k]] == front[before[k]];
    }
  }

  lemma RunAtMore(a: Agent, turns: seq<Turn>, tools: seq<string>, places: seq<nat>, t: Turn, place: nat)
    requires RunAt(a, turns, tools, places) && place < |tools| && IsRunOf(a, t, |turns|, tools[place])
    ensures RunAt(a, turns + [t], tools, places + [place])
  {
    hide IsRunOf;
  }

  lemma {:induction false} TurnsFollowTools(a: Agent, tools: seq<string>) returns (places: seq<nat>)
    ensures FollowTools(a, TemplateTurns(a, tools), tools, places)
  {
    if tools == [] {
      places := [];
    } else {
      hide IsRunOf, RunAt, AreRunnable, PreconditionMet, TurnFor, TemplateCall;
      var n := |tools| - 1;
      var before := TurnsFollowTools(a, tools[..n]);
      var turns := TemplateTurns(a, tools[..n]);
      TurnIsRun(a, |turns|, tools[n]);
      assert tools == tools[..n] + [tools[n]];
      RunnableSnoc(a, tools[..n], tools[n], before);
      RunAtLonger(a, turns, tools[..n], tools[n], before);
      RunAtMore(a, turns, tools, before, TurnFor(a, |turns|, TemplateCall(a, tools[n])), n);
      places := if PreconditionMet(a, tools[n]) then before + [n] else before;
    }
  }

  lemma TurnIsRun(a: Agent, k: nat, tool: string)
    ensures IsRunOf(a, TurnFor(a, k, TemplateCall(a, tool)), k, tool)
  {
    hide WithBaseline;
  }

  /** Without a model's choice the first tools of the task's topic are run in order, as many as there are
      steps, but for the log where it cannot be read. */
  lemma TemplateRunFollowsTools(a: Agent, task: string) returns (places: seq<nat>)
    ensures var all, turns := ChosenTemplate(a, task).tools, TemplateRun(a, task);
      FollowTools(a, turns, all[..if |all| < a.maxSteps then |all| else a.maxSteps], places)
  {
    hide ChosenTemplate, TemplateTurns, FollowTools;
    var all := ChosenTemplate(a, task).tools;
    assert all[..|all|] == all;
    places := TurnsFollowTools(a, FirstTools(a, all));
  }
}
