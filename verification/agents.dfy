/** The investigation agent (core_engine/src/agent.rs): the loop in which a model chooses tools, the
    template it falls back to, and the run around them. */
module Agents {
  import opened Wrappers
  import opened Text
  import opened Json
  import opened WordMatch
  import opened InvestigationTemplates
  import opened Findings
  import opened FindingSelection
  import opened FindingReport
  import opened CoverageBaselines

  datatype ToolSpec = ToolSpec(name: string, description: string)

  /** The fixed lines of the first prompt around the tool list, and what follows the task line. */
  datatype Wording = Wording(intro: seq<string>, protocol: seq<string>, closing: string)

  /** An agent and its surroundings. `execute` is given the number of earlier executions. */
  datatype Agent = Agent(
    maxSteps: nat,
    strong: bool,
    wording: Wording,
    specs: seq<ToolSpec>,
    baseline: Option<CoverageBaseline>,
    canReadSyslog: bool,
    execute: (nat, ToolCall) -> Result<Value, string>,
    parse: string -> Option<ToolCall>,
    render: Value -> string,
    lower: string -> string,
    answer: (string, seq<Finding>) -> string,
    basicAnswer: (seq<Finding>, string) -> string,
    synthesisPrompt: (string, seq<Turn>) -> string)

  /** A model: from its state and a prompt to its output, or an error, and the next state. */
  type Brain<!S> = (S, string) -> (Result<string, string>, S)

  // ---- prompts ----

  function JoinedLines(lines: seq<string>): string {
    if lines == [] then "" else lines[0] + "\n" + JoinedLines(lines[1..])
  }

  function ManifestLines(specs: seq<ToolSpec>): seq<string> {
    if specs == [] then [""]
    else seq(|specs|, i requires 0 <= i < |specs| => "- " + specs[i].name + ": " + specs[i].description)
  }

  /** `format_react_system_prompt` */
  function SystemPrompt(a: Agent, task: string): string {
    JoinedLines(a.wording.intro + ManifestLines(a.specs) + a.wording.protocol) + "Task: " + task + "\n" + a.wording.closing
  }

  const NOT_PARSED := "ERROR — could not parse tool call. Use <call>{\"tool\":\"name\",\"args\":{...}}</call> format."
  const NO_ACTION := "No action detected. Respond with <call>...</call> to use a tool or <final>...</final> to finish."

  function Extended(transcript: string, output: string, observation: string): string {
    transcript + "\n" + output + "\nObservation: " + observation + "\n"
  }

  // ---- tool execution ----

  function ErrorObservation(message: string): Value {
    Object(map["error" := Str(message)])
  }

  function Observed(a: Agent, n: nat, call: ToolCall): Value {
    match a.execute(n, call)
    case Success(value) => value
    case Failure(message) => ErrorObservation(message)
  }

  function TurnFor(a: Agent, n: nat, call: ToolCall): Turn {
    Turn(Some(call), Some(Observed(a, n, call)))
  }

  function TemplateCall(a: Agent, tool: string): ToolCall {
    WithBaseline(a.baseline, ToolCall(tool, Object(map[])))
  }

  predicate PreconditionMet(a: Agent, tool: string) {
    tool == "read_syslog" ==> a.canReadSyslog
  }

  /** One turn for each tool whose precondition is met. */
  function TemplateTurns(a: Agent, tools: seq<string>): (turns: seq<Turn>)
    ensures |turns| <= |tools|
  {
    if tools == [] then []
    else
      var tool := tools[|tools| - 1];
      var turns := TemplateTurns(a, tools[..|tools| - 1]);
      if PreconditionMet(a, tool) then turns + [TurnFor(a, |turns|, TemplateCall(a, tool))] else turns
  }

  function ChosenTemplate(a: Agent, task: string): Template {
    BroadTriageExactly(a.lower(task));
    BUILTIN_TEMPLATES[Chosen(a.lower(task))]
  }

  function FirstTools(a: Agent, tools: seq<string>): (r: seq<string>)
    ensures |r| <= a.maxSteps
  {
    if |tools| <= a.maxSteps then tools else tools[..a.maxSteps]
  }

  function TemplateRun(a: Agent, task: string): seq<Turn> {
    TemplateTurns(a, FirstTools(a, ChosenTemplate(a, task).tools))
  }

  method ResolveTemplate(a: Agent, task: string) returns (template: Template)
    ensures template == ChosenTemplate(a, task)
  {
    hide Scores;
    BuiltinKeywordsAreExact();
    template := ResolveInvestigationTemplate(BUILTIN_TEMPLATES, a.lower(task));
  }

  method RunTemplatePhase(a: Agent, task: string) returns (turns: seq<Turn>)
    ensures turns == TemplateRun(a, task)
  {
    hide TurnFor, BUILTIN_TEMPLATES, ChosenTemplate;
    var template := ResolveTemplate(a, task);
    var tools := FirstTools(a, template.tools);
    turns := [];
    for i := 0 to |tools|
      invariant turns == TemplateTurns(a, tools[..i])
    {
      assert tools[..i + 1][..i] == tools[..i];
      if !PreconditionMet(a, tools[i]) {
        continue;
      }
      var call := ApplyCoverageBaselineToCall(a.baseline, ToolCall(tools[i], Object(map[])));
      turns := turns + [TurnFor(a, |turns|, call)];
    }
    assert tools[..|tools|] == tools;
  }

  // ---- the loop ----

  datatype Outcome = Outcome(turns: seq<Turn>, answer: string)

  /** How the loop ends: its outcome or the model's error, the model's state, and the number of
      times the model was asked. */
  datatype Ended<S> = Ended(result: Result<Outcome, string>, state: S, asked: nat)

  function Answered(a: Agent, turns: seq<Turn>, raw: string): Outcome {
    Outcome(turns, a.answer(raw, Deduplicated(Derived(turns))))
  }

  /** What a final answer yields: without any turn the template is run after all. */
  function Finished(a: Agent, task: string, turns: seq<Turn>, final: string): Outcome {
    Answered(a, if turns == [] then TemplateRun(a, task) else turns, final)
  }

  /** After the last step the model is asked once more, for a synthesis. */
  function Synthesized<S>(a: Agent, brain: Brain<S>, task: string, turns: seq<Turn>, s: S, asked: nat): Ended<S> {
    var evidence := if turns == [] then TemplateRun(a, task) else turns;
    var (output, s') := brain(s, a.synthesisPrompt(task, evidence));
    if output.Failure? then Ended(Failure(output.error), s', asked + 1)
    else
      var tagged := ExtractTag(output.value, "final");
      Ended(Success(Answered(a, evidence, if tagged.Some? then tagged.value else output.value)), s', asked + 1)
  }

  /** The transcript and turns after an output that is not final. */
  function Acted(a: Agent, transcript: string, turns: seq<Turn>, output: string): (string, seq<Turn>) {
    var text := ExtractTag(output, "call");
    if text.None? then (Extended(transcript, output, NO_ACTION), turns)
    else
      match a.parse(text.value)
      case None => (Extended(transcript, output, NOT_PARSED), turns)
      case Some(parsed) =>
        var turn := TurnFor(a, |turns|, WithBaseline(a.baseline, parsed));
        (Extended(transcript, output, a.render(turn.observation.value)), turns + [turn])
  }

  function Loop<S>(a: Agent, brain: Brain<S>, task: string, step: nat, s: S, transcript: string, turns: seq<Turn>): Ended<S>
    requires step <= a.maxSteps
    decreases a.maxSteps - step
  {
    if step == a.maxSteps then Synthesized(a, brain, task, turns, s, step)
    else
      var (output, s') := brain(s, transcript);
      if output.Failure? then Ended(Failure(output.error), s', step + 1)
      else
        var final := ExtractTag(output.value, "final");
        if final.Some? then Ended(Success(Finished(a, task, turns, final.value)), s', step + 1)
        else
          var (transcript', turns') := Acted(a, transcript, turns, output.value);
          Loop(a, brain, task, step + 1, s', transcript', turns')
  }

  function ReactLoop<S>(a: Agent, brain: Brain<S>, task: string, s: S): Ended<S> {
    Loop(a, brain, task, 0, s, SystemPrompt(a, task), [])
  }

  method RunReactLoop<S>(a: Agent, brain: Brain<S>, task: string, initial: S)
    returns (r: Result<Outcome, string>, s: S, asked: nat)
    ensures Ended(r, s, asked) == ReactLoop(a, brain, task, initial)
  {
    hide Scores, Observed, ExtractTag, SystemPrompt, Derived, Deduplicated, TemplateRun;
    var transcript := SystemPrompt(a, task);
    var turns: seq<Turn> := [];
    s := initial;
    for step := 0 to a.maxSteps
      invariant ReactLoop(a, brain, task, initial) == Loop(a, brain, task, step, s, transcript, turns)
    {
      var (output, next) := brain(s, transcript);
      s := next;
      if output.Failure? {
        return Failure(output.error), s, step + 1;
      }
      var final := ExtractTag(output.value, "final");
      if final.Some? {
        if turns == [] {
          turns := RunTemplatePhase(a, task);
        }
        return Success(Answered(a, turns, final.value)), s, step + 1;
      }
      var text := ExtractTag(output.value, "call");
      if text.Some? {
        var parsed := a.parse(text.value);
        match parsed
        case Some(named) =>
          var call := ApplyCoverageBaselineToCall(a.baseline, named);
          var observation := Observed(a, |turns|, call);
          transcript := Extended(transcript, output.value, a.render(observation));
          turns := turns + [Turn(Some(call), Some(observation))];
        case None =>
          transcript := Extended(transcript, output.value, NOT_PARSED);
      } else {
        transcript := Extended(transcript, output.value, NO_ACTION);
      }
    }
    if turns == [] {
      turns := RunTemplatePhase(a, task);
    }
    var (output, next) := brain(s, a.synthesisPrompt(task, turns));
    s := next;
    asked := a.maxSteps + 1;
    if output.Failure? {
      return Failure(output.error), s, asked;
    }
    var tagged := ExtractTag(output.value, "final");
    r := Success(Answered(a, turns, if tagged.Some? then tagged.value else output.value));
  }

  // ---- a run ----

  const IN_SCOPE_KEYWORDS := ["host", "account", "persistence", "network", "process", "privilege", "ssh", "listener",
                              "port", "autorun", "hash", "integrity", "log"]
  const OUT_OF_SCOPE_INDICATORS := ["cloud", "aws", "azure", "gcp", "s3", "iam", "kubernetes", "container", "api",
                                    "email", "phishing", "siem"]

  predicate OutOfScope(lower: string) {
    && (forall k | k in IN_SCOPE_KEYWORDS :: !KeywordStands(lower, k))
    && exists k | k in OUT_OF_SCOPE_INDICATORS :: KeywordStands(lower, k)
  }

  const SCOPE_FINDING := NewFinding([], Info, 100, EvidencePointer(None, None, "scope_check"))
  const OUT_OF_SCOPE_ANSWER :=
    "Task is outside the scope of available host-local investigation tools. No tools were executed."

  datatype RunReport = RunReport(turns: seq<Turn>, answer: string, findings: seq<Finding>, maxSeverity: Option<Severity>)

  /** The weakest models do not choose tools: the template is run. */
  function Investigated<S>(a: Agent, brain: Brain<S>, task: string, s: S): Ended<S> {
    if a.strong then ReactLoop(a, brain, task, s)
    else
      var turns := TemplateRun(a, task);
      Ended(Success(Outcome(turns, a.basicAnswer(Deduplicated(Derived(turns)), task))), s, 0)
  }

  function Reported(outcome: Outcome): RunReport {
    RunReport(outcome.turns, outcome.answer, Report(outcome.turns), MaxSeverity(Report(outcome.turns)))
  }

  /** `Agent::run` */
  method Run<S>(a: Agent, brain: Brain<S>, task: string, initial: S) returns (r: Result<RunReport, string>, s: S, asked: nat)
    ensures OutOfScope(a.lower(task)) ==>
      s == initial && asked == 0 && r == Success(RunReport([], OUT_OF_SCOPE_ANSWER, [SCOPE_FINDING], Some(Info)))
    ensures !OutOfScope(a.lower(task)) ==>
      var ended := Investigated(a, brain, task, initial);
      s == ended.state && asked == ended.asked
      && r == if ended.result.Failure? then Failure(ended.result.error) else Success(Reported(ended.result.value))
  {
    hide Loop, Derived, Deduplicated, TemplateRun, OutOfScope, Report;
    s, asked := initial, 0;
    if OutOfScope(a.lower(task)) {
      return Success(RunReport([], OUT_OF_SCOPE_ANSWER, [SCOPE_FINDING], Some(Info))), s, asked;
    }
    var outcome: Result<Outcome, string>;
    if a.strong {
      outcome, s, asked := RunReactLoop(a, brain, task, initial);
    } else {
      var turns := RunTemplatePhase(a, task);
      outcome := Success(Outcome(turns, a.basicAnswer(Deduplicated(Derived(turns)), task)));
    }
    if outcome.Failure? {
      return Failure(outcome.error), s, asked;
    }
    var findings, maxSeverity := AssembleReport(outcome.value.turns);
    ReportIsNotEmpty(outcome.value.turns);
    r := Success(RunReport(outcome.value.turns, outcome.value.answer, findings, maxSeverity));
  }

  // ---- what holds of every run ----

  /** Turn `k` is the `k`-th execution: it has a call and what executing it gave. */
  ghost predicate AreExecutions(a: Agent, turns: seq<Turn>) {
    forall k :: 0 <= k < |turns| ==> turns[k].call.Some? && turns[k] == TurnFor(a, k, turns[k].call.value)
  }

  lemma {:induction false} TemplateTurnsAreExecutions(a: Agent, tools: seq<string>)
    ensures AreExecutions(a, TemplateTurns(a, tools))
  {
    hide Observed, TemplateCall;
    if tools != [] {
      TemplateTurnsAreExecutions(a, tools[..|tools| - 1]);
    }
  }

  lemma TemplateRunIsExecutions(a: Agent, task: string)
    ensures AreExecutions(a, TemplateRun(a, task)) && |TemplateRun(a, task)| <= a.maxSteps
  {
    hide TemplateTurns, AreExecutions, ChosenTemplate;
    TemplateTurnsAreExecutions(a, FirstTools(a, ChosenTemplate(a, task).tools));
  }

  lemma ActedIsExecutions(a: Agent, transcript: string, turns: seq<Turn>, output: string)
    requires AreExecutions(a, turns)
    ensures AreExecutions(a, Acted(a, transcript, turns, output).1) && |Acted(a, transcript, turns, output).1| <= |turns| + 1
  {
    hide Observed, ExtractTag, WithBaseline, Extended;
  }

  lemma {:induction false} LoopIsExecutions<S>(a: Agent, brain: Brain<S>, task: string, step: nat, s: S, transcript: string,
                                               turns: seq<Turn>)
    requires step <= a.maxSteps && |turns| <= step && AreExecutions(a, turns)
    ensures var ended := Loop(a, brain, task, step, s, transcript, turns);
            && ended.asked <= a.maxSteps + 1
            && (ended.result.Success? ==> AreExecutions(a, ended.result.value.turns) && |ended.result.value.turns| <= a.maxSteps)
    decreases a.maxSteps - step
  {
    hide TemplateRun, ExtractTag, Acted, AreExecutions;
    TemplateRunIsExecutions(a, task);
    if step < a.maxSteps {
      var (output, s') := brain(s, transcript);
      if output.Success? && ExtractTag(output.value, "final").None? {
        ActedIsExecutions(a, transcript, turns, output.value);
        var (transcript', turns') := Acted(a, transcript, turns, output.value);
        LoopIsExecutions(a, brain, task, step + 1, s', transcript', turns');
      }
    }
  }

  /** Whatever the model answers: every turn of a run is an execution, the steps bound the turns and
      the questions, and the findings point into the turns. */
  lemma EveryRunIsSound<S>(a: Agent, brain: Brain<S>, task: string, s: S)
    ensures var ended := Investigated(a, brain, task, s);
      && ended.asked <= a.maxSteps + 1
      && (ended.result.Success? ==>
            var report := Reported(ended.result.value);
            && AreExecutions(a, report.turns) && |report.turns| <= a.maxSteps
            && ((forall f | f in report.findings :: Resolves(f.pointer, report.turns) && f.relevance == Primary)
                || report.findings == [NOTHING_FOUND])
            && Failures(report.findings) == FailedCalls(report.turns))
  {
    hide Loop, TemplateRun, AreExecutions, Report, Resolves;
    var ended := Investigated(a, brain, task, s);
    TemplateRunIsExecutions(a, task);
    assert AreExecutions(a, []) by {
      TemplateTurnsAreExecutions(a, []);
    }
    LoopIsExecutions(a, brain, task, 0, s, SystemPrompt(a, task), []);
    if ended.result.Success? {
      ReportPointersResolve(ended.result.value.turns);
      ReportIsPrimary(ended.result.value.turns);
      FailedCallsAreReported(ended.result.value.turns);
    }
  }
}
