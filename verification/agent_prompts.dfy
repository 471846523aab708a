/** What the agent's loop shows the model (core_engine/src/agent.rs): with a model that writes down what it
    is asked and what it answers, every prompt is the one before it with that answer and what came of it. */
module AgentPrompts {
  import opened Wrappers
  import opened Text
  import opened Json
  import opened Findings
  import opened FindingSelection
  import opened CoverageBaselines
  import opened Agents

  datatype Exchange = Exchange(prompt: string, output: Result<string, string>)

  /** The same model, which keeps a record. */
  function Recording<S>(brain: Brain<S>): Brain<(S, seq<Exchange>)> {
    (s: (S, seq<Exchange>), prompt: string) =>
      var (output, next) := brain(s.0, prompt);
      (output, (next, s.1 + [Exchange(prompt, output)]))
  }

  // ---- what an answer leads to ----

  /** The call that an answer asks for, with the baseline filled in. */
  function CallIn(a: Agent, output: string): Option<ToolCall> {
    match ExtractTag(output, "call")
    case None => None
    case Some(text) =>
      match a.parse(text)
      case None => None
      case Some(parsed) => Some(WithBaseline(a.baseline, parsed))
  }

  /** What executing the call gave; `n` executions came before. */
  function ObservationOf(a: Agent, n: nat, call: ToolCall): Value {
    match a.execute(n, call)
    case Success(value) => value
    case Failure(message) => Object(map["error" := Str(message)])
  }

  function ReplyTo(a: Agent, n: nat, output: string): string {
    if ExtractTag(output, "call").None? then
      "No action detected. Respond with <call>...</call> to use a tool or <final>...</final> to finish."
    else if CallIn(a, output).None? then
      "ERROR — could not parse tool call. Use <call>{\"tool\":\"name\",\"args\":{...}}</call> format."
    else a.render(ObservationOf(a, n, CallIn(a, output).value))
  }

  function OutputOf(e: Exchange): string {
    if e.output.Success? then e.output.value else ""
  }

  /** The turns that a record has led to. */
  function TurnsOf(a: Agent, log: seq<Exchange>): seq<Turn> {
    if log == [] then []
    else
      var turns, call := TurnsOf(a, log[..|log| - 1]), CallIn(a, OutputOf(log[|log| - 1]));
      if call.None? then turns else turns + [Turn(call, Some(ObservationOf(a, |turns|, call.value)))]
  }

  predicate IsNotFinal(e: Exchange) {
    e.output.Success? && ExtractTag(e.output.value, "final").None?
  }

  /** The next prompt is this one, the answer to it, and what came of that. */
  predicate Continues(a: Agent, log: seq<Exchange>, i: nat)
    requires i + 1 < |log|
  {
    && IsNotFinal(log[i])
    && log[i + 1].prompt
       == log[i].prompt + "\n" + log[i].output.value + "\nObservation: "
          + ReplyTo(a, |TurnsOf(a, log[..i])|, log[i].output.value) + "\n"
  }

  /** The prompts of the loop's steps, beginning with the task. */
  predicate IsDialogue(a: Agent, task: string, log: seq<Exchange>) {
    && (log != [] ==> log[0].prompt == SystemPrompt(a, task))
    && forall i :: 0 <= i < |log| - 1 ==> Continues(a, log, i)
  }

  function Evidence(a: Agent, task: string, turns: seq<Turn>): seq<Turn> {
    if turns == [] then TemplateRun(a, task) else turns
  }

  /** The last answer decides: an error, a final answer, or after the last step a synthesis of the evidence. */
  ghost predicate Concludes(a: Agent, task: string, log: seq<Exchange>, result: Result<Outcome, string>)
    requires log != []
  {
    var n := |log| - 1;
    var turns, last := Evidence(a, task, TurnsOf(a, log[..n])), log[n];
    match last.output
    case Failure(error) => result == Failure(error)
    case Success(output) =>
      var final := ExtractTag(output, "final");
      && (n < a.maxSteps ==> final.Some?)
      && result == Success(Outcome(turns, a.answer(if final.Some? then final.value else output, Deduplicated(Derived(turns)))))
  }

  ghost predicate IsRecord(a: Agent, task: string, log: seq<Exchange>, result: Result<Outcome, string>) {
    && 1 <= |log| <= a.maxSteps + 1
    && Concludes(a, task, log, result)
    && if |log| <= a.maxSteps then IsDialogue(a, task, log)
       else
         && IsDialogue(a, task, log[..a.maxSteps]) && (forall i :: 0 <= i < a.maxSteps ==> IsNotFinal(log[i]))
         && log[a.maxSteps].prompt == a.synthesisPrompt(task, Evidence(a, task, TurnsOf(a, log[..a.maxSteps])))
  }

  // ---- the loop ----

  /** The transcript that a record has led to. */
  function TranscriptOf(a: Agent, task: string, log: seq<Exchange>): string {
    if log == [] then SystemPrompt(a, task)
    else
      var front, output := log[..|log| - 1], OutputOf(log[|log| - 1]);
      TranscriptOf(a, task, front) + "\n" + output + "\nObservation: " + ReplyTo(a, |TurnsOf(a, front)|, output) + "\n"
  }

  lemma ActedReplies(a: Agent, task: string, log: seq<Exchange>, e: Exchange)
    requires e.output.Success?
    ensures Acted(a, TranscriptOf(a, task, log), TurnsOf(a, log), e.output.value)
         == (TranscriptOf(a, task, log + [e]), TurnsOf(a, log + [e]))
  {
    hide ExtractTag, WithBaseline, SystemPrompt;
    assert (log + [e])[..|log|] == log;
  }

  /** Each step was asked with the transcript of the steps before it, and none gave a final answer. */
  predicate WasAsked(a: Agent, task: string, log: seq<Exchange>) {
    forall i :: 0 <= i < |log| ==> log[i].prompt == TranscriptOf(a, task, log[..i])
  }

  lemma AskedIsDialogue(a: Agent, task: string, log: seq<Exchange>)
    requires WasAsked(a, task, log) && forall i :: 0 <= i < |log| - 1 ==> IsNotFinal(log[i])
    ensures IsDialogue(a, task, log)
  {
    hide ReplyTo, IsNotFinal, SystemPrompt, TurnsOf;
    if log != [] {
      assert log[..0] == [];
    }
    forall i | 0 <= i < |log| - 1 ensures Continues(a, log, i) {
      assert log[..i + 1][..i] == log[..i] && log[..i + 1][i] == log[i];
      assert IsNotFinal(log[i]);
      NotFinalSucceeds(log[i]);
    }
  }

  lemma NotFinalSucceeds(e: Exchange)
    requires IsNotFinal(e)
    ensures e.output.Success?
  {
  }

  lemma WasAskedMore(a: Agent, task: string, log: seq<Exchange>, e: Exchange)
    requires WasAsked(a, task, log) && e.prompt == TranscriptOf(a, task, log)
    ensures WasAsked(a, task, log + [e])
  {
    hide TranscriptOf;
    var more := log + [e];
    assert more[..|log|] == log;
    assert forall i :: 0 <= i < |log| ==> more[..i] == log[..i];
  }

  lemma EndsAtStep(a: Agent, task: string, log: seq<Exchange>, e: Exchange)
    requires |log| < a.maxSteps && WasAsked(a, task, log) && forall i :: 0 <= i < |log| ==> IsNotFinal(log[i])
    requires e.prompt == TranscriptOf(a, task, log) && !IsNotFinal(e)
    ensures e.output.Failure? ==> IsRecord(a, task, log + [e], Failure(e.output.error))
    ensures e.output.Success? ==>
      && ExtractTag(e.output.value, "final").Some?
      && IsRecord(a, task, log + [e], Success(Finished(a, task, TurnsOf(a, log), ExtractTag(e.output.value, "final").value)))
  {
    hide WasAsked, ExtractTag, Derived, Deduplicated, TemplateRun, IsDialogue, TurnsOf, TranscriptOf;
    var all := log + [e];
    assert all[..|log|] == log;
    WasAskedMore(a, task, log, e);
    forall i | 0 <= i < |all| - 1 ensures IsNotFinal(all[i]) {
      assert all[i] == log[i];
    }
    AskedIsDialogue(a, task, all);
  }

  lemma EndsWithSynthesis<S>(a: Agent, brain: Brain<S>, task: string, s: S, log: seq<Exchange>)
    requires |log| == a.maxSteps && WasAsked(a, task, log) && forall i :: 0 <= i < |log| ==> IsNotFinal(log[i])
    ensures var ended := Synthesized(a, Recording(brain), task, TurnsOf(a, log), (s, log), |log|);
      && IsRecord(a, task, ended.state.1, ended.result) && |ended.state.1| == ended.asked
      && Synthesized(a, brain, task, TurnsOf(a, log), s, |log|) == Ended(ended.result, ended.state.0, ended.asked)
  {
    hide WasAsked, ExtractTag, Derived, Deduplicated, TemplateRun, IsDialogue, TurnsOf, IsNotFinal;
    var (output, next) := brain(s, a.synthesisPrompt(task, Evidence(a, task, TurnsOf(a, log))));
    var e := Exchange(a.synthesisPrompt(task, Evidence(a, task, TurnsOf(a, log))), output);
    var all := log + [e];
    assert all[..|log|] == log;
    AskedIsDialogue(a, task, log);
    assert Synthesized(a, Recording(brain), task, TurnsOf(a, log), (s, log), |log|).state == (next, all);
  }

  lemma {:induction false} LoopIsRecord<S>(a: Agent, brain: Brain<S>, task: string, step: nat, s: S, log: seq<Exchange>)
    requires step == |log| <= a.maxSteps && WasAsked(a, task, log) && forall i :: 0 <= i < |log| ==> IsNotFinal(log[i])
    ensures var ended := Loop(a, Recording(brain), task, step, (s, log), TranscriptOf(a, task, log), TurnsOf(a, log));
      && IsRecord(a, task, ended.state.1, ended.result) && |ended.state.1| == ended.asked
      && Loop(a, brain, task, step, s, TranscriptOf(a, task, log), TurnsOf(a, log))
         == Ended(ended.result, ended.state.0, ended.asked)
    decreases a.maxSteps - step
  {
    hide WasAsked, IsRecord, TurnsOf, TranscriptOf, Acted, Finished, ExtractTag, Synthesized;
    var transcript := TranscriptOf(a, task, log);
    if step == a.maxSteps {
      EndsWithSynthesis(a, brain, task, s, log);
    } else {
      var (output, next) := brain(s, transcript);
      var e := Exchange(transcript, output);
      assert Recording(brain)((s, log), transcript) == (output, (next, log + [e]));
      if IsNotFinal(e) {
        ActedReplies(a, task, log, e);
        WasAskedMore(a, task, log, e);
        LoopIsRecord(a, brain, task, step + 1, next, log + [e]);
      } else {
        EndsAtStep(a, task, log, e);
      }
    }
  }

  /** Whatever the model: its first prompt is the system prompt of the task; each later one is the prompt
      before with the answer to it and the observation of the call in that answer, or what was wrong with it; and
      the last answer is the outcome. Writing all this down changes nothing. */
  lemma PromptsTellObservations<S>(a: Agent, brain: Brain<S>, task: string, s: S)
    ensures var ended := ReactLoop(a, Recording(brain), task, (s, []));
      && IsRecord(a, task, ended.state.1, ended.result) && |ended.state.1| == ended.asked
      && ReactLoop(a, brain, task, s) == Ended(ended.result, ended.state.0, ended.asked)
  {
    hide Loop, IsRecord;
    LoopIsRecord(a, brain, task, 0, s, []);
  }

  // ---- the first prompt ----

  /** The text holds the line. */
  ghost predicate HasLine(text: string, line: string) {
    exists before, after :: text == before + line + "\n" + after
  }

  lemma {:induction false} JoinedHasLine(lines: seq<string>, line: string, after: string)
    requires line in lines
    ensures HasLine(JoinedLines(lines) + after, line)
  {
    if lines[0] == line {
      assert JoinedLines(lines) + after == "" + line + "\n" + (JoinedLines(lines[1..]) + after);
    } else {
      JoinedHasLine(lines[1..], line, after);
      var b, c :| JoinedLines(lines[1..]) + after == b + line + "\n" + c;
      var first := lines[0] + "\n";
      assert JoinedLines(lines) + after == first + (JoinedLines(lines[1..]) + after);
      assert first + (b + line + "\n" + c) == (first + b) + line + "\n" + c;
    }
  }

  /** The first prompt names every tool with what it does, has all fixed lines, and gives the task. */
  lemma FirstPromptTells(a: Agent, task: string)
    ensures forall spec | spec in a.specs :: HasLine(SystemPrompt(a, task), "- " + spec.name + ": " + spec.description)
    ensures forall line | line in a.wording.intro + a.wording.protocol :: HasLine(SystemPrompt(a, task), line)
    ensures HasLine(SystemPrompt(a, task), "Task: " + task)
  {
    hide JoinedLines, HasLine;
    var lines := a.wording.intro + ManifestLines(a.specs) + a.wording.protocol;
    var after := "Task: " + task + "\n" + a.wording.closing;
    assert SystemPrompt(a, task) == JoinedLines(lines) + after;
    forall spec | spec in a.specs ensures HasLine(SystemPrompt(a, task), "- " + spec.name + ": " + spec.description) {
      var i :| 0 <= i < |a.specs| && a.specs[i] == spec;
      assert ManifestLines(a.specs)[i] in ManifestLines(a.specs);
      JoinedHasLine(lines, "- " + spec.name + ": " + spec.description, after);
    }
    forall line | line in a.wording.intro + a.wording.protocol ensures HasLine(SystemPrompt(a, task), line) {
      JoinedHasLine(lines, line, after);
    }
    TaskHasLine(JoinedLines(lines), task, a.wording.closing);
  }

  lemma TaskHasLine(before: string, task: string, after: string)
    ensures HasLine(before + ("Task: " + task + "\n" + after), "Task: " + task)
  {
    assert before + ("Task: " + task + "\n" + after) == before + ("Task: " + task) + "\n" + after;
  }
}
