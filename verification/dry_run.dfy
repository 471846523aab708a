/** The dry-run engine (inference_bridge/src/lib.rs): it answers every prompt with the next tool call
    of the template that fits the prompt's task, and starts over once it has named them all. */
module DryRun {
  import opened Wrappers
  import opened Text
  import opened Json
  import opened Findings
  import opened InvestigationTemplates

  // ---- the task of a prompt ----

  const TASK_PREFIX := "Task:"

  function TaskOfLine(line: string): Option<string> {
    var trimmed := Trim(line);
    if TASK_PREFIX <= trimmed then Some(Trim(trimmed[|TASK_PREFIX|..])) else None
  }

  function FirstTask(lines: seq<string>): Option<string> {
    if lines == [] then None
    else if TaskOfLine(lines[0]).Some? then TaskOfLine(lines[0])
    else FirstTask(lines[1..])
  }

  /** `extract_task_from_prompt`, or the whole prompt */
  function TaskOf(prompt: string): string {
    match FirstTask(Lines(prompt))
    case Some(task) => task
    case None => prompt
  }

  // ---- arguments guessed from the task ----

  function WordEnd(s: string): (n: nat)
    ensures n <= |s| && (s != "" && !IsWhitespace(s[0]) ==> n > 0)
  {
    if s == "" || IsWhitespace(s[0]) then 0 else 1 + WordEnd(s[1..])
  }

  /** `split_whitespace` */
  function Words(s: string): (words: seq<string>)
    ensures forall w, c | w in words && c in w :: c in s
    decreases |s|
  {
    TrimStartIs(s);
    var t := TrimStart(s);
    if t == "" then []
    else
      var n := WordEnd(t);
      [t[..n]] + Words(t[n..])
  }

  /** `trim_matches` */
  function Stripped(s: string, chars: string): (r: string)
    ensures forall c | c in r :: c in s
    decreases |s|
  {
    if s == "" then s
    else if s[0] in chars then Stripped(s[1..], chars)
    else if s[|s| - 1] in chars then Stripped(s[..|s| - 1], chars)
    else s
  }

  predicate EndsWith(s: string, suffix: string) {
    |suffix| <= |s| && s[|s| - |suffix|..] == suffix
  }

  predicate LooksLikePath(word: string) {
    || '/' in word || '\\' in word || ':' in word
    || exists suffix | suffix in [".exe", ".dll", ".log", ".txt", ".md", ".json", ".toml"] :: EndsWith(word, suffix)
  }

  const PUNCTUATION := "\"',;()[]{}"

  function FirstPath(words: seq<string>): (r: Option<string>)
    ensures r.Some? ==> exists w :: w in words && forall c | c in r.value :: c in w
  {
    if words == [] then None
    else
      var word := Stripped(words[0], PUNCTUATION);
      if LooksLikePath(word) then
        assert words[0] in words;
        Some(word)
      else
        assert forall w | w in words[1..] :: w in words;
        FirstPath(words[1..])
  }

  function GuessPath(task: string): (r: Option<string>)
    ensures r.Some? ==> forall c | c in r.value :: c in task
  {
    FirstPath(Words(task))
  }

  predicate IsDigit(c: char) {
    '0' <= c <= '9'
  }

  function DigitsValue(digits: string): nat
    requires forall c | c in digits :: IsDigit(c)
  {
    if digits == "" then 0
    else
      assert IsDigit(digits[|digits| - 1]);
      10 * DigitsValue(digits[..|digits| - 1]) + (digits[|digits| - 1] as int - '0' as int)
  }

  /** `parse::<usize>` */
  function ParseCount(word: string): Option<nat> {
    var digits := if word != "" && word[0] == '+' then word[1..] else word;
    if digits == "" || exists c | c in digits :: !IsDigit(c) then None
    else if DigitsValue(digits) >= 0x1_0000_0000_0000_0000 then None
    else Some(DigitsValue(digits))
  }

  const MAX_LINES: nat := 5000

  function FirstLineCount(words: seq<string>): (r: Option<nat>)
    ensures r.Some? ==> 1 <= r.value <= MAX_LINES
  {
    if |words| < 2 then None
    else
      var count := ParseCount(Stripped(words[0], PUNCTUATION + "."));
      if count.Some? && count.value > 0 && "line" <= Lower(Stripped(words[1], PUNCTUATION + ".")) then
        Some(if count.value < MAX_LINES then count.value else MAX_LINES)
      else FirstLineCount(words[1..])
  }

  // ---- the text of a call ----

  datatype Argument = Path(path: string) | Count(count: nat)

  function ReplaceChar(s: string, c: char, substitute: string): string {
    if s == "" then "" else (if s[0] == c then substitute else [s[0]]) + ReplaceChar(s[1..], c, substitute)
  }

  function Escaped(s: string): string {
    ReplaceChar(ReplaceChar(s, '\\', "\\\\"), '"', "\\\"")
  }

  function Decimal(n: nat): string {
    (if n < 10 then "" else Decimal(n / 10)) + [('0' as int + n % 10) as char]
  }

  function ArgumentText(a: Argument): string {
    match a
    case Path(path) => "\"" + Escaped(path) + "\""
    case Count(count) => Decimal(count)
  }

  function ArgumentsText(args: seq<(string, Argument)>): string {
    if args == [] then ""
    else
      "\"" + args[0].0 + "\":" + ArgumentText(args[0].1)
      + (if |args| == 1 then "" else ",") + ArgumentsText(args[1..])
  }

  function CallText(tool: string, args: seq<(string, Argument)>): string {
    "{\"tool\":\"" + tool + "\",\"args\":{" + ArgumentsText(args) + "}}"
  }

  /** The arguments the dry run gives to a tool. `defaultLog` is the platform's log file. */
  function ArgumentsFor(tool: string, task: string, defaultLog: string): seq<(string, Argument)> {
    var path := GuessPath(task);
    match tool
    case "capture_coverage_baseline" => [("persistence_limit", Count(256)), ("listener_limit", Count(128))]
    case "hash_binary" => [("path", Path(if path.Some? then path.value else "./Cargo.toml"))]
    case "read_syslog" =>
      var lines := FirstLineCount(Words(task));
      [("path", Path(if path.Some? then path.value else defaultLog)), ("max_lines", Count(if lines.Some? then lines.value else 200))]
    case "correlate_process_network" => [("limit", Count(64))]
    case "scan_network" => [("limit", Count(40))]
    case "inspect_persistence_locations" => [("limit", Count(200))]
    case _ => []
  }

  /** `format_dry_run_tool_call` */
  function FormatCall(tool: string, task: string, defaultLog: string): string {
    Tagged("call", CallText(tool, ArgumentsFor(tool, task, defaultLog)))
  }

  const CYCLE_COMPLETE :=
    "Dry-run cycle complete. Review the latest tool observations and escalate manually if indicators persist."

  // ---- the engine ----

  /** Of the standard library's and the platform's part: `to_lowercase` and the log file's path. */
  datatype Platform = Platform(lower: string -> string, defaultLog: string)

  function Respond(p: Platform, index: nat, prompt: string): (string, nat) {
    var task := TaskOf(prompt);
    var tools := DryRunTools(p.lower(task));
    if index >= |tools| then (Tagged("final", CYCLE_COMPLETE), 0)
    else (FormatCall(tools[index], task, p.defaultLog), index + 1)
  }

  class DryRunEngine {
    const platform: Platform
    var toolIndex: nat

    constructor (platform: Platform)
      ensures this.platform == platform && toolIndex == 0
    {
      this.platform := platform;
      toolIndex := 0;
    }

    method Generate(prompt: string) returns (output: string)
      modifies this
      ensures (output, toolIndex) == Respond(platform, old(toolIndex), prompt)
    {
      var task := TaskOf(prompt);
      var tools := ResolveDryRunTemplate(DRY_RUN_TEMPLATES, BROAD_TOOLS, platform.lower(task));
      if toolIndex >= |tools| {
        toolIndex := 0;
        return Tagged("final", CYCLE_COMPLETE);
      }
      var tool := tools[toolIndex];
      toolIndex := toolIndex + 1;
      output := FormatCall(tool, task, platform.defaultLog);
    }
  }

  // ---- what the calls contain ----

  const KNOWN_TOOLS := {
    "capture_coverage_baseline", "hash_binary", "read_syslog", "correlate_process_network", "scan_network",
    "inspect_persistence_locations", "audit_account_changes", "check_privilege_escalation_vectors", "enumerate_ssh_keys"
  }

  predicate NoTag(s: string) {
    '<' !in s
  }

  lemma {:induction false} ReplaceNoTag(s: string, c: char, substitute: string)
    requires NoTag(s) && NoTag(substitute)
    ensures NoTag(ReplaceChar(s, c, substitute))
  {
    if s != "" {
      assert s[0] in s;
      ReplaceNoTag(s[1..], c, substitute);
    }
  }

  lemma {:induction false} DecimalNoTag(n: nat)
    ensures NoTag(Decimal(n))
  {
    if n >= 10 {
      DecimalNoTag(n / 10);
    }
  }

  predicate PlainArgument(a: (string, Argument)) {
    NoTag(a.0) && (a.1.Path? ==> NoTag(a.1.path))
  }

  lemma ArgumentNoTag(a: Argument)
    requires a.Path? ==> NoTag(a.path)
    ensures NoTag(ArgumentText(a))
  {
    match a
    case Path(path) =>
      ReplaceNoTag(path, '\\', "\\\\");
      ReplaceNoTag(ReplaceChar(path, '\\', "\\\\"), '"', "\\\"");
    case Count(count) => DecimalNoTag(count);
  }

  lemma {:induction false} ArgumentsNoTag(args: seq<(string, Argument)>)
    requires forall a | a in args :: PlainArgument(a)
    ensures NoTag(ArgumentsText(args))
  {
    if args != [] {
      assert PlainArgument(args[0]);
      ArgumentNoTag(args[0].1);
      ArgumentsNoTag(args[1..]);
    }
  }

  lemma CallNoTag(tool: string, args: seq<(string, Argument)>)
    requires NoTag(tool) && forall a | a in args :: PlainArgument(a)
    ensures NoTag(CallText(tool, args)) && Trim(CallText(tool, args)) == CallText(tool, args)
  {
    ArgumentsNoTag(args);
    TrimOfTrimmed(CallText(tool, args));
  }

  lemma KnownToolsNoTag(tool: string)
    requires tool in KNOWN_TOOLS
    ensures NoTag(tool)
  {
  }

  lemma DryRunToolsAreKnown(lower: string)
    ensures forall t | t in DryRunTools(lower) :: t in KNOWN_TOOLS
  {
    hide Scores, KNOWN_TOOLS;
    ToolsKnown();
    assert DryRunTools(lower) == BROAD_TOOLS || exists t | t in DRY_RUN_TEMPLATES :: DryRunTools(lower) == t.tools;
  }

  lemma ToolsKnown()
    ensures forall t | t in BROAD_TOOLS :: t in KNOWN_TOOLS
    ensures forall template | template in DRY_RUN_TEMPLATES :: forall t | t in template.tools :: t in KNOWN_TOOLS
  {
  }

  lemma ArgumentsArePlain(tool: string, task: string, defaultLog: string)
    requires NoTag(task) && NoTag(defaultLog)
    ensures forall a | a in ArgumentsFor(tool, task, defaultLog) :: PlainArgument(a)
  {
  }
}
