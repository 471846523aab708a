/** The agent driven by the dry-run engine: it executes the tools of the task's template in order. */
module DryRunAgent {
  import opened Wrappers
  import opened Text
  import opened Json
  import opened InvestigationTemplates
  import opened Findings
  import opened FindingReport
  import opened CoverageBaselines
  import opened DryRun
  import opened Agents

  function Answering(p: Platform): Brain<nat> {
    (index: nat, prompt: string) => var (output, next) := Respond(p, index, prompt); (Success(output), next)
  }

  // ---- the task survives the prompt ----

  /** Nothing on the line before the task makes it a task line. */
  predicate CannotStartTask(line: string) {
    '\n' !in line && (line == "" || (!IsWhitespace(line[0]) && line[0] != 'T'))
  }

  lemma NotTaskLine(line: string)
    requires CannotStartTask(line)
    ensures TaskOfLine(WithoutReturn(line)).None?
  {
    hide IsWhitespace, IsBlank;
    var l := WithoutReturn(line);
    var before, after := TrimParts(l);
    if l != "" {
      FirstStays(l);
    }
  }

  /** Trimming keeps a first character that is not white space. */
  lemma FirstStays(s: string)
    requires s != "" && !IsWhitespace(s[0])
    ensures Trim(s) != "" && Trim(s)[0] == s[0]
  {
    assert !IsBlank(s);
    assert TrimStart(s) == s;
  }

  lemma TaskLine(task: string)
    ensures TaskOfLine(WithoutReturn(TASK_PREFIX + " " + task)) == Some(Trim(task))
  {
    hide IsWhitespace;
    var line := WithoutReturn(TASK_PREFIX + " " + task);
    var rest := line[|TASK_PREFIX|..];
    assert line == TASK_PREFIX + rest;
    TrimAfterPrefix(rest);
    BlanksAroundTask(task, rest);
  }

  lemma BlanksAroundTask(task: string, rest: string)
    requires TASK_PREFIX + rest == WithoutReturn(TASK_PREFIX + " " + task)
    ensures Trim(rest) == Trim(task)
  {
    var line := TASK_PREFIX + " " + task;
    assert IsBlank("") && IsBlank(" ") && IsBlank("\r");
    hide IsBlank, Trim;
    assert rest == (TASK_PREFIX + rest)[|TASK_PREFIX|..];
    if task != "" && task[|task| - 1] == '\r' {
      var front := task[..|task| - 1];
      assert task == "" + front + "\r";
      assert line[..|line| - 1] == TASK_PREFIX + " " + front;
      assert rest == " " + front + "";
      TrimOfPadded(" ", front, "");
      TrimOfPadded("", front, "\r");
    } else {
      assert rest == " " + task + "";
      TrimOfPadded(" ", task, "");
    }
  }

  lemma TrimAfterPrefix(rest: string)
    ensures TaskOfLine(TASK_PREFIX + rest) == Some(Trim(rest))
  {
    hide IsWhitespace, IsBlank;
    var line := TASK_PREFIX + rest;
    assert !IsWhitespace('T') by {
      NotWhite();
    }
    assert TrimStart(line) == line;
    TrimEndAfterPrefix(rest);
    assert Trim(line) == TASK_PREFIX + TrimEnd(rest);
    assert (TASK_PREFIX + TrimEnd(rest))[|TASK_PREFIX|..] == TrimEnd(rest);
    var kept := TrimEnd(rest);
    assert rest == "" + kept + rest[|kept|..];
    BlankNothing();
    TrimOfPadded("", kept, rest[|kept|..]);
  }

  lemma NotWhite()
    ensures !IsWhitespace('T') && !IsWhitespace(':')
  {
  }

  lemma BlankNothing()
    ensures IsBlank("")
  {
  }

  lemma {:induction false} TrimEndAfterPrefix(rest: string)
    ensures TrimEnd(TASK_PREFIX + rest) == TASK_PREFIX + TrimEnd(rest)
    decreases |rest|
  {
    hide IsBlank;
    NotWhite();
    hide IsWhitespace;
    if rest == "" {
      assert TASK_PREFIX + rest == TASK_PREFIX;
    } else {
      var n := |rest| - 1;
      assert (TASK_PREFIX + rest)[|TASK_PREFIX + rest| - 1] == rest[n];
      if IsWhitespace(rest[n]) {
        assert (TASK_PREFIX + rest)[..|TASK_PREFIX + rest| - 1] == TASK_PREFIX + rest[..n];
        TrimEndAfterPrefix(rest[..n]);
      }
    }
  }

  lemma {:induction false} TaskAfterLines(lines: seq<string>, task: string, rest: string)
    requires '\n' !in task && forall l | l in lines :: CannotStartTask(l)
    ensures FirstTask(Lines(JoinedLines(lines) + "Task: " + task + "\n" + rest)) == Some(Trim(task))
  {
    hide WithoutReturn, TaskOfLine, Trim;
    if lines == [] {
      var line := TASK_PREFIX + " " + task;
      assert JoinedLines(lines) + "Task: " + task + "\n" + rest == line + "\n" + rest;
      FirstLine(line, rest);
      TaskLine(task);
    } else {
      var next := JoinedLines(lines[1..]) + "Task: " + task + "\n" + rest;
      assert JoinedLines(lines) + "Task: " + task + "\n" + rest == lines[0] + "\n" + next;
      assert CannotStartTask(lines[0]);
      FirstLine(lines[0], next);
      NotTaskLine(lines[0]);
      TaskAfterLines(lines[1..], task, rest);
    }
  }

  /** The prompt's own lines are none of them task lines, and tool descriptions are single lines. */
  ghost predicate PromptIsPlain(a: Agent) {
    && (forall l | l in a.wording.intro + a.wording.protocol :: CannotStartTask(l))
    && (forall spec | spec in a.specs :: '\n' !in spec.name && '\n' !in spec.description)
  }

  lemma ManifestCannotStartTask(specs: seq<ToolSpec>)
    requires forall spec | spec in specs :: '\n' !in spec.name && '\n' !in spec.description
    ensures forall l | l in ManifestLines(specs) :: CannotStartTask(l)
  {
  }

  /** However long the transcript has grown, the engine finds the task. */
  lemma TaskIsFound(a: Agent, task: string, later: string)
    requires PromptIsPlain(a) && '\n' !in task
    ensures TaskOf(SystemPrompt(a, task) + later) == Trim(task)
  {
    hide CannotStartTask, FirstTask, Lines, JoinedLines;
    var lines := a.wording.intro + ManifestLines(a.specs) + a.wording.protocol;
    ManifestCannotStartTask(a.specs);
    TaskAfterLines(lines, task, a.wording.closing + later);
    assert SystemPrompt(a, task) + later == JoinedLines(lines) + "Task: " + task + "\n" + (a.wording.closing + later);
  }

  // ---- the calls are read back ----

  function ArgumentValue(a: Argument): Value {
    match a
    case Path(path) => Str(path)
    case Count(count) => if count < 0x1_0000_0000_0000_0000 then Whole(count as U64) else OtherNumber
  }

  function ArgumentsValue(args: seq<(string, Argument)>): map<string, Value> {
    if args == [] then map[]
    else ArgumentsValue(args[..|args| - 1])[args[|args| - 1].0 := ArgumentValue(args[|args| - 1].1)]
  }

  /** No character that JSON wants escaped other than quotes and backslashes, and none of a tag. */
  predicate IsSimple(s: string) {
    forall c | c in s :: c >= ' ' && c != '<' && c != '>'
  }

  const ARGUMENT_NAMES := {"persistence_limit", "listener_limit", "path", "max_lines", "limit"}

  predicate AreSimple(args: seq<(string, Argument)>) {
    forall a | a in args :: a.0 in ARGUMENT_NAMES && (a.1.Path? ==> IsSimple(a.1.path))
  }

  /** The JSON reader reads the calls of known tools with simple paths as they are meant. */
  ghost predicate ReadsCalls(parse: string -> Option<ToolCall>) {
    forall tool: string, args: seq<(string, Argument)> :: tool in KNOWN_TOOLS && AreSimple(args) ==>
      parse(CallText(tool, args)) == Some(ToolCall(tool, Object(ArgumentsValue(args))))
  }

  lemma ArgumentsAreSimple(tool: string, task: string, defaultLog: string)
    requires IsSimple(task) && IsSimple(defaultLog)
    ensures AreSimple(ArgumentsFor(tool, task, defaultLog))
  {
  }

  lemma CallIsRead(a: Agent, tool: string, task: string, defaultLog: string)
    requires ReadsCalls(a.parse) && tool in KNOWN_TOOLS && IsSimple(task) && IsSimple(defaultLog)
    ensures var output := FormatCall(tool, task, defaultLog);
      && ExtractTag(output, "final").None? && ExtractTag(output, "call").Some?
      && a.parse(ExtractTag(output, "call").value)
         == Some(ToolCall(tool, Object(ArgumentsValue(ArgumentsFor(tool, task, defaultLog)))))
  {
    var args := ArgumentsFor(tool, task, defaultLog);
    KnownToolsNoTag(tool);
    ArgumentsAreSimple(tool, task, defaultLog);
    ArgumentsArePlain(tool, task, defaultLog);
    hide KNOWN_TOOLS, AreSimple, ArgumentsFor, CallText, ExtractTag, IsSimple, Trim, Tagged;
    CallNoTag(tool, args);
    TaggedBody("call", CallText(tool, args));
    NoOtherTag("call", CallText(tool, args), "final");
  }

  lemma CompletionIsFinal()
    ensures ExtractTag(Tagged("final", CYCLE_COMPLETE), "final").Some?
  {
    hide CYCLE_COMPLETE;
    TaggedIsRead("final", CYCLE_COMPLETE);
  }

  // ---- the run ----

  /** The turns so far called the first tools in order. */
  ghost predicate CalledInOrder(turns: seq<Turn>, tools: seq<string>) {
    |turns| <= |tools| && forall k :: 0 <= k < |turns| ==> turns[k].call.Some? && turns[k].call.value.tool == tools[k]
  }

  /** The agent, the platform and the task are as the theorem wants them. */
  ghost predicate Suits(a: Agent, p: Platform, task: string) {
    a.maxSteps >= 1 && PromptIsPlain(a) && ReadsCalls(a.parse) && IsSimple(task) && IsSimple(p.defaultLog)
  }

  function ToolsOf(p: Platform, task: string): seq<string> {
    DryRunTools(p.lower(Trim(task)))
  }

  lemma Asked(a: Agent, p: Platform, task: string, later: string, k: nat)
    requires Suits(a, p, task)
    ensures Respond(p, k, SystemPrompt(a, task) + later)
         == if k >= |ToolsOf(p, task)| then (Tagged("final", CYCLE_COMPLETE), 0)
            else (FormatCall(ToolsOf(p, task)[k], Trim(task), p.defaultLog), k + 1)
  {
    hide SystemPrompt, TaskOf, Trim, DryRunTools, PromptIsPlain, ReadsCalls, FormatCall;
    assert '\n' !in task;
    TaskIsFound(a, task, later);
  }

  lemma TrimmedIsSimple(task: string)
    requires IsSimple(task)
    ensures IsSimple(Trim(task))
  {
  }

  lemma ActedOnCall(a: Agent, transcript: string, turns: seq<Turn>, output: string, call: ToolCall)
    requires ExtractTag(output, "call").Some? && a.parse(ExtractTag(output, "call").value) == Some(call)
    ensures var (transcript', turns') := Acted(a, transcript, turns, output);
      && |turns'| == |turns| + 1 && turns'[..|turns|] == turns
      && turns'[|turns|].call.Some? && turns'[|turns|].call.value.tool == call.tool
      && exists more :: transcript' == transcript + more
  {
    hide ExtractTag, Observed, WithBaseline;
    var (transcript', turns') := Acted(a, transcript, turns, output);
    var observation := a.render(turns'[|turns|].observation.value);
    assert transcript' == transcript + ("\n" + output + "\nObservation: " + observation + "\n");
  }

  lemma ToolsOfAreKnown(p: Platform, task: string)
    ensures forall t | t in ToolsOf(p, task) :: t in KNOWN_TOOLS
  {
    DryRunToolsAreKnown(p.lower(Trim(task)));
  }

  lemma OneStep(a: Agent, p: Platform, task: string, later: string, turns: seq<Turn>)
    requires Suits(a, p, task) && |turns| < |ToolsOf(p, task)| && CalledInOrder(turns, ToolsOf(p, task))
    ensures var output := FormatCall(ToolsOf(p, task)[|turns|], Trim(task), p.defaultLog);
      && ExtractTag(output, "final").None?
      && var (transcript, turns') := Acted(a, SystemPrompt(a, task) + later, turns, output);
         && |turns'| == |turns| + 1 && CalledInOrder(turns', ToolsOf(p, task))
         && exists more :: transcript == SystemPrompt(a, task) + more
  {
    hide KNOWN_TOOLS, SystemPrompt, Trim, ToolsOf, ArgumentsFor, ArgumentsValue, PromptIsPlain, FormatCall, ExtractTag, Acted,
         IsSimple, ReadsCalls;
    var tools := ToolsOf(p, task);
    var tool := tools[|turns|];
    ToolsOfAreKnown(p, task);
    TrimmedIsSimple(task);
    CallIsRead(a, tool, Trim(task), p.defaultLog);
    var output := FormatCall(tool, Trim(task), p.defaultLog);
    var prompt := SystemPrompt(a, task);
    ActedOnCall(a, prompt + later, turns, output,
                ToolCall(tool, Object(ArgumentsValue(ArgumentsFor(tool, Trim(task), p.defaultLog)))));
    var (transcript, turns') := Acted(a, prompt + later, turns, output);
    var more :| transcript == prompt + later + more;
    assert transcript == prompt + (later + more);
    forall k | 0 <= k < |turns'| ensures turns'[k].call.Some? && turns'[k].call.value.tool == tools[k] {
      if k < |turns| {
        assert turns'[k] == turns'[..|turns|][k];
      }
    }
  }

  /** How the loop ends: all tools called and the engine back at its start, or as many as there were
      steps. */
  ghost predicate EndsWell(a: Agent, tools: seq<string>, ended: Ended<nat>) {
    && ended.result.Success? && ended.asked <= a.maxSteps + 1
    && CalledInOrder(ended.result.value.turns, tools)
    && |ended.result.value.turns| == (if a.maxSteps < |tools| then a.maxSteps else |tools|)
    && (a.maxSteps > |tools| ==> ended.state == 0 && ended.asked == |tools| + 1)
  }

  lemma {:induction false} LoopEndsWell(a: Agent, p: Platform, task: string, later: string, turns: seq<Turn>)
    requires Suits(a, p, task) && CalledInOrder(turns, ToolsOf(p, task)) && |turns| <= a.maxSteps
    ensures EndsWell(a, ToolsOf(p, task),
                     Loop<nat>(a, Answering(p), task, |turns|, |turns|, SystemPrompt(a, task) + later, turns))
    decreases a.maxSteps - |turns|
  {
    var k := |turns|;
    hide SystemPrompt, Trim, PromptIsPlain, FormatCall, ExtractTag, Acted, ReadsCalls, IsSimple, TemplateRun, DryRunTools;
    assert |ToolsOf(p, task)| >= 1;
    if k < a.maxSteps {
      Asked(a, p, task, later, k);
      if k == |ToolsOf(p, task)| {
        CompletionIsFinal();
      } else {
        OneStep(a, p, task, later, turns);
        var output := FormatCall(ToolsOf(p, task)[k], Trim(task), p.defaultLog);
        var (transcript, turns') := Acted(a, SystemPrompt(a, task) + later, turns, output);
        var more :| transcript == SystemPrompt(a, task) + more;
        LoopEndsWell(a, p, task, more, turns');
      }
    }
  }

  /** A fresh dry-run engine leads the agent through the first tools of the task's template, as many
      as there are steps, in order. With steps to spare it ends where it began. */
  lemma DryRunFollowsTemplate(a: Agent, p: Platform, task: string)
    requires Suits(a, p, task)
    ensures EndsWell(a, ToolsOf(p, task), ReactLoop<nat>(a, Answering(p), task, 0))
  {
    LoopEndsWell(a, p, task, "", []);
    assert SystemPrompt(a, task) + "" == SystemPrompt(a, task);
  }

  /** The same of a whole run on a task that is in scope: the turns of its report call these tools. */
  method RunDryInvestigation(a: Agent, p: Platform, task: string)
    returns (r: Result<RunReport, string>, index: nat, asked: nat)
    requires Suits(a, p, task) && a.strong && !OutOfScope(a.lower(task))
    ensures var tools := ToolsOf(p, task);
      && r.Success? && CalledInOrder(r.value.turns, tools) && asked <= a.maxSteps + 1
      && |r.value.turns| == (if a.maxSteps < |tools| then a.maxSteps else |tools|)
      && (a.maxSteps > |tools| ==> index == 0 && asked == |tools| + 1)
    ensures r.Success? && r.value.findings == Report(r.value.turns)
  {
    hide ReactLoop, Suits, ToolsOf, OutOfScope, Report, CalledInOrder, Answering;
    DryRunFollowsTemplate(a, p, task);
    r, index, asked := Agents.Run<nat>(a, Answering(p), task, 0);
  }
}
