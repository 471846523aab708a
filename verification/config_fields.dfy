/** The settings of a run (cli/src/main.rs): the structs that hold them, and the four functions that copy
    them field by field. */
module ConfigFields {
  import opened Wrappers

  datatype LiveFallbackPolicy = NoFallback | DryRunOnError
  datatype OutputFormat = Json | Summary | Markdown | Narrative
  datatype OutputMode = Compact | Full
  datatype AutomationAdapter = FindingsV1
  datatype ExitPolicy = NoExitPolicy | SeverityThreshold
  datatype ExitSeverityThreshold = Info | Low | Medium | High | Critical
  datatype LogMode = Quiet | Normal | Verbose
  datatype CapabilityOverride = Basic | Moderate | Strong
  datatype Float = Real(x: real) | NotANumber

  // ---- fields by name ----

  datatype Field =
    | Task | Model | Tokenizer | MaxSteps | MaxNewTokens | Temperature | Live | Fallback | Format | Mode | Adapter | Exit
    | Threshold | OutputFile | CaseId | BundleDir | BundleArchive | Baseline | Log | VitisConfig | VitisCacheDir
    | VitisCacheKey | Backend | Capability | ToolsDir | AllowedPlugins

  datatype Setting =
    | Text(text: string) | Number(n: nat) | Degrees(t: Float) | Flag(on: bool) | FallbackIs(policy: LiveFallbackPolicy)
    | FormatIs(format: OutputFormat) | ModeIs(mode: OutputMode) | AdapterIs(adapter: AutomationAdapter)
    | ExitIs(exit: ExitPolicy) | ThresholdIs(threshold: ExitSeverityThreshold) | LogIs(log: LogMode)
    | CapabilityIs(capability: CapabilityOverride) | Names(names: seq<string>)

  /** The fields that are set. An optional field that is not set is absent. */
  type Settings = map<Field, Setting>

  // ---- a fragment: a profile, a file's defaults, the environment ----

  datatype SettingsFragment = SettingsFragment(
    model: Option<string>, tokenizer: Option<string>, maxSteps: Option<nat>, maxNewTokens: Option<nat>,
    temperature: Option<Float>, live: Option<bool>, liveFallbackPolicy: Option<LiveFallbackPolicy>,
    format: Option<OutputFormat>, automationAdapter: Option<AutomationAdapter>, exitPolicy: Option<ExitPolicy>,
    exitThreshold: Option<ExitSeverityThreshold>, outputFile: Option<string>, caseId: Option<string>,
    evidenceBundleDir: Option<string>, evidenceBundleArchive: Option<string>, baselineBundle: Option<string>,
    outputMode: Option<OutputMode>, log: Option<LogMode>, vitisConfig: Option<string>, vitisCacheDir: Option<string>,
    vitisCacheKey: Option<string>, backend: Option<string>)

  const EMPTY := SettingsFragment(
    None, None, None, None, None, None, None, None, None, None, None, None, None, None, None, None, None, None, None,
    None, None, None)

  function FragmentAt(s: SettingsFragment, f: Field): Option<Setting> {
    match f
    case Model => if s.model.Some? then Some(Text(s.model.value)) else None
    case Tokenizer => if s.tokenizer.Some? then Some(Text(s.tokenizer.value)) else None
    case MaxSteps => if s.maxSteps.Some? then Some(Number(s.maxSteps.value)) else None
    case MaxNewTokens => if s.maxNewTokens.Some? then Some(Number(s.maxNewTokens.value)) else None
    case Temperature => if s.temperature.Some? then Some(Degrees(s.temperature.value)) else None
    case Live => if s.live.Some? then Some(Flag(s.live.value)) else None
    case Fallback => if s.liveFallbackPolicy.Some? then Some(FallbackIs(s.liveFallbackPolicy.value)) else None
    case Format => if s.format.Some? then Some(FormatIs(s.format.value)) else None
    case Mode => if s.outputMode.Some? then Some(ModeIs(s.outputMode.value)) else None
    case Adapter => if s.automationAdapter.Some? then Some(AdapterIs(s.automationAdapter.value)) else None
    case Exit => if s.exitPolicy.Some? then Some(ExitIs(s.exitPolicy.value)) else None
    case Threshold => if s.exitThreshold.Some? then Some(ThresholdIs(s.exitThreshold.value)) else None
    case OutputFile => if s.outputFile.Some? then Some(Text(s.outputFile.value)) else None
    case CaseId => if s.caseId.Some? then Some(Text(s.caseId.value)) else None
    case BundleDir => if s.evidenceBundleDir.Some? then Some(Text(s.evidenceBundleDir.value)) else None
    case BundleArchive => if s.evidenceBundleArchive.Some? then Some(Text(s.evidenceBundleArchive.value)) else None
    case Baseline => if s.baselineBundle.Some? then Some(Text(s.baselineBundle.value)) else None
    case Log => if s.log.Some? then Some(LogIs(s.log.value)) else None
    case VitisConfig => if s.vitisConfig.Some? then Some(Text(s.vitisConfig.value)) else None
    case VitisCacheDir => if s.vitisCacheDir.Some? then Some(Text(s.vitisCacheDir.value)) else None
    case VitisCacheKey => if s.vitisCacheKey.Some? then Some(Text(s.vitisCacheKey.value)) else None
    case Backend => if s.backend.Some? then Some(Text(s.backend.value)) else None
    case Task => None
    case Capability => None
    case ToolsDir => None
    case AllowedPlugins => None
  }

  function FragmentSettings(s: SettingsFragment): Settings {
    map f: Field | FragmentAt(s, f).Some? :: FragmentAt(s, f).value
  }

  // ---- the command line ----

  datatype Cli = Cli(
    model: Option<string>, tokenizer: Option<string>, maxSteps: Option<nat>, maxNewTokens: Option<nat>,
    temperature: Option<Float>, liveFallbackPolicy: Option<LiveFallbackPolicy>, format: Option<OutputFormat>,
    outputMode: Option<OutputMode>, automationAdapter: Option<AutomationAdapter>, exitPolicy: Option<ExitPolicy>,
    exitThreshold: Option<ExitSeverityThreshold>, outputFile: Option<string>, caseId: Option<string>,
    evidenceBundleDir: Option<string>, evidenceBundleArchive: Option<string>, baselineBundle: Option<string>,
    vitisConfig: Option<string>, vitisCacheDir: Option<string>, vitisCacheKey: Option<string>,
    backend: Option<string>, live: bool, dryRun: bool, quiet: bool, verbose: bool,
    capabilityOverride: Option<CapabilityOverride>, toolsDir: Option<string>, allowedPlugins: seq<string>)

  /** What the command line sets of a fragment's fields: a dry run prevails over live, verbose over quiet. */
  function CliOptions(cli: Cli): SettingsFragment {
    SettingsFragment(
      cli.model, cli.tokenizer, cli.maxSteps, cli.maxNewTokens, cli.temperature,
      if cli.dryRun then Some(false) else if cli.live then Some(true) else None, cli.liveFallbackPolicy, cli.format,
      cli.automationAdapter, cli.exitPolicy, cli.exitThreshold, cli.outputFile, cli.caseId, cli.evidenceBundleDir,
      cli.evidenceBundleArchive, cli.baselineBundle, cli.outputMode,
      if cli.verbose then Some(Verbose) else if cli.quiet then Some(Quiet) else None, cli.vitisConfig,
      cli.vitisCacheDir, cli.vitisCacheKey, cli.backend)
  }

  /** What it sets besides. */
  function CliExtras(cli: Cli): Settings {
    map f: Field | ExtraAt(cli, f).Some? :: ExtraAt(cli, f).value
  }

  function ExtraAt(cli: Cli, f: Field): Option<Setting> {
    match f
    case Capability => if cli.capabilityOverride.Some? then Some(CapabilityIs(cli.capabilityOverride.value)) else None
    case ToolsDir => if cli.toolsDir.Some? then Some(Text(cli.toolsDir.value)) else None
    case AllowedPlugins => if cli.allowedPlugins == [] then None else Some(Names(cli.allowedPlugins))
    case _ => None
  }

  // ---- the configuration ----

  /** The contents of a configuration. */
  datatype ConfigValues = ConfigValues(
    task: string, model: string, tokenizer: Option<string>, maxSteps: nat, maxNewTokens: nat, temperature: Float,
    live: bool, liveFallbackPolicy: LiveFallbackPolicy, format: OutputFormat, outputMode: OutputMode,
    automationAdapter: Option<AutomationAdapter>, exitPolicy: ExitPolicy,
    exitThreshold: Option<ExitSeverityThreshold>, outputFile: Option<string>, caseId: Option<string>,
    evidenceBundleDir: Option<string>, evidenceBundleArchive: Option<string>, baselineBundle: Option<string>,
    logMode: LogMode, vitisConfig: Option<string>, vitisCacheDir: Option<string>, vitisCacheKey: Option<string>,
    backend: Option<string>, capabilityOverride: Option<CapabilityOverride>, toolsDir: Option<string>,
    allowedPlugins: seq<string>)

  function ConfigAt(v: ConfigValues, f: Field): Option<Setting> {
    match f
    case Task => Some(Text(v.task))
    case Model => Some(Text(v.model))
    case Tokenizer => if v.tokenizer.Some? then Some(Text(v.tokenizer.value)) else None
    case MaxSteps => Some(Number(v.maxSteps))
    case MaxNewTokens => Some(Number(v.maxNewTokens))
    case Temperature => Some(Degrees(v.temperature))
    case Live => Some(Flag(v.live))
    case Fallback => Some(FallbackIs(v.liveFallbackPolicy))
    case Format => Some(FormatIs(v.format))
    case Mode => Some(ModeIs(v.outputMode))
    case Adapter => if v.automationAdapter.Some? then Some(AdapterIs(v.automationAdapter.value)) else None
    case Exit => Some(ExitIs(v.exitPolicy))
    case Threshold => if v.exitThreshold.Some? then Some(ThresholdIs(v.exitThreshold.value)) else None
    case OutputFile => if v.outputFile.Some? then Some(Text(v.outputFile.value)) else None
    case CaseId => if v.caseId.Some? then Some(Text(v.caseId.value)) else None
    case BundleDir => if v.evidenceBundleDir.Some? then Some(Text(v.evidenceBundleDir.value)) else None
    case BundleArchive => if v.evidenceBundleArchive.Some? then Some(Text(v.evidenceBundleArchive.value)) else None
    case Baseline => if v.baselineBundle.Some? then Some(Text(v.baselineBundle.value)) else None
    case Log => Some(LogIs(v.logMode))
    case VitisConfig => if v.vitisConfig.Some? then Some(Text(v.vitisConfig.value)) else None
    case VitisCacheDir => if v.vitisCacheDir.Some? then Some(Text(v.vitisCacheDir.value)) else None
    case VitisCacheKey => if v.vitisCacheKey.Some? then Some(Text(v.vitisCacheKey.value)) else None
    case Backend => if v.backend.Some? then Some(Text(v.backend.value)) else None
    case Capability => if v.capabilityOverride.Some? then Some(CapabilityIs(v.capabilityOverride.value)) else None
    case ToolsDir => if v.toolsDir.Some? then Some(Text(v.toolsDir.value)) else None
    case AllowedPlugins => if v.allowedPlugins == [] then None else Some(Names(v.allowedPlugins))
  }

  function SettingsOf(v: ConfigValues): Settings {
    map f: Field | ConfigAt(v, f).Some? :: ConfigAt(v, f).value
  }

  /** Where each setting comes from. */
  datatype SourceLabels = SourceLabels(
    task: string, model: string, tokenizer: string, maxSteps: string, maxNewTokens: string, temperature: string,
    live: string, liveFallbackPolicy: string, format: string, outputMode: string, automationAdapter: string,
    exitPolicy: string, exitThreshold: string, outputFile: string, caseId: string, evidenceBundleDir: string,
    evidenceBundleArchive: string, baselineBundle: string, logMode: string, vitisConfig: string,
    vitisCacheDir: string, vitisCacheKey: string, backend: string)

  function LabelAt(l: SourceLabels, f: Field): Option<string> {
    match f
    case Task => Some(l.task)
    case Model => Some(l.model)
    case Tokenizer => Some(l.tokenizer)
    case MaxSteps => Some(l.maxSteps)
    case MaxNewTokens => Some(l.maxNewTokens)
    case Temperature => Some(l.temperature)
    case Live => Some(l.live)
    case Fallback => Some(l.liveFallbackPolicy)
    case Format => Some(l.format)
    case Mode => Some(l.outputMode)
    case Adapter => Some(l.automationAdapter)
    case Exit => Some(l.exitPolicy)
    case Threshold => Some(l.exitThreshold)
    case OutputFile => Some(l.outputFile)
    case CaseId => Some(l.caseId)
    case BundleDir => Some(l.evidenceBundleDir)
    case BundleArchive => Some(l.evidenceBundleArchive)
    case Baseline => Some(l.baselineBundle)
    case Log => Some(l.logMode)
    case VitisConfig => Some(l.vitisConfig)
    case VitisCacheDir => Some(l.vitisCacheDir)
    case VitisCacheKey => Some(l.vitisCacheKey)
    case Backend => Some(l.backend)
    case Capability => None
    case ToolsDir => None
    case AllowedPlugins => None
  }

  function LabelsOf(l: SourceLabels): map<Field, string> {
    map f: Field | LabelAt(l, f).Some? :: LabelAt(l, f).value
  }

  function New(task: string): ConfigValues {
    ConfigValues(
      task, "./models/llm.onnx", None, 8, 256, Real(0.2), false, NoFallback, Json, Compact, None, NoExitPolicy, None,
      None, None, None, None, None, Normal, None, None, None, None, None, None, [])
  }

  /** The same label for every field but the task. */
  function AllFrom(task: string, source: string): SourceLabels {
    SourceLabels(
      task, source, source, source, source, source, source, source, source, source, source, source, source, source,
      source, source, source, source, source, source, source, source, source)
  }

  /** The label of each option. */
  function CliLabels(cli: Cli): SourceLabels {
    SourceLabels(
      "", "cli --model", "cli --tokenizer", "cli --max-steps", "cli --max-new-tokens", "cli --temperature",
      if cli.dryRun then "cli --dry-run" else "cli --live", "cli --live-fallback-policy", "cli --format",
      "cli --output-mode", "cli --automation-adapter", "cli --exit-policy", "cli --exit-threshold",
      "cli --output-file", "cli --case-id", "cli --evidence-bundle-dir", "cli --evidence-bundle-archive",
      "cli --baseline-bundle", if cli.verbose then "cli --verbose" else "cli --quiet", "cli --vitis-config",
      "cli --vitis-cache-dir", "cli --vitis-cache-key", "cli --backend")
  }

  // ---- a fragment laid over a configuration, in groups of fields ----

  function WithModel(v: ConfigValues, s: SettingsFragment): ConfigValues {
    v.(
      model := if s.model.Some? then s.model.value else v.model,
      tokenizer := if s.tokenizer.Some? then s.tokenizer else v.tokenizer,
      maxSteps := if s.maxSteps.Some? then s.maxSteps.value else v.maxSteps,
      maxNewTokens := if s.maxNewTokens.Some? then s.maxNewTokens.value else v.maxNewTokens,
      temperature := if s.temperature.Some? then s.temperature.value else v.temperature)
  }

  function WithLive(v: ConfigValues, s: SettingsFragment): ConfigValues {
    v.(
      live := if s.live.Some? then s.live.value else v.live,
      liveFallbackPolicy := if s.liveFallbackPolicy.Some? then s.liveFallbackPolicy.value else v.liveFallbackPolicy,
      format := if s.format.Some? then s.format.value else v.format,
      outputMode := if s.outputMode.Some? then s.outputMode.value else v.outputMode)
  }

  function WithExit(v: ConfigValues, s: SettingsFragment): ConfigValues {
    v.(
      automationAdapter := if s.automationAdapter.Some? then s.automationAdapter else v.automationAdapter,
      exitPolicy := if s.exitPolicy.Some? then s.exitPolicy.value else v.exitPolicy,
      exitThreshold := if s.exitThreshold.Some? then s.exitThreshold else v.exitThreshold)
  }

  function WithOutput(v: ConfigValues, s: SettingsFragment): ConfigValues {
    v.(
      outputFile := if s.outputFile.Some? then s.outputFile else v.outputFile,
      caseId := if s.caseId.Some? then s.caseId else v.caseId,
      evidenceBundleDir := if s.evidenceBundleDir.Some? then s.evidenceBundleDir else v.evidenceBundleDir,
      evidenceBundleArchive := if s.evidenceBundleArchive.Some? then s.evidenceBundleArchive else v.evidenceBundleArchive)
  }

  function WithLog(v: ConfigValues, s: SettingsFragment): ConfigValues {
    v.(
      baselineBundle := if s.baselineBundle.Some? then s.baselineBundle else v.baselineBundle,
      logMode := if s.log.Some? then s.log.value else v.logMode)
  }

  function WithBackend(v: ConfigValues, s: SettingsFragment): ConfigValues {
    v.(
      vitisConfig := if s.vitisConfig.Some? then s.vitisConfig else v.vitisConfig,
      vitisCacheDir := if s.vitisCacheDir.Some? then s.vitisCacheDir else v.vitisCacheDir,
      vitisCacheKey := if s.vitisCacheKey.Some? then s.vitisCacheKey else v.vitisCacheKey,
      backend := if s.backend.Some? then s.backend else v.backend)
  }

  function Overlaid(v: ConfigValues, s: SettingsFragment): ConfigValues {
    WithBackend(WithLog(WithOutput(WithExit(WithLive(WithModel(v, s), s), s), s), s), s)
  }

  /** Each field is taken from the fragment where it has it, whatever the field. */
  lemma OverlaidAt(v: ConfigValues, s: SettingsFragment)
    ensures forall f :: ConfigAt(Overlaid(v, s), f) == if FragmentAt(s, f).Some? then FragmentAt(s, f) else ConfigAt(v, f)
  {
  }

  lemma OverlaidSettings(v: ConfigValues, s: SettingsFragment)
    ensures SettingsOf(Overlaid(v, s)) == SettingsOf(v) + FragmentSettings(s)
  {
    OverlaidAt(v, s);
    hide Overlaid, ConfigAt, FragmentAt;
  }

  function LabelModel(l: SourceLabels, s: SettingsFragment, labels: SourceLabels): SourceLabels {
    l.(
      model := if s.model.Some? then labels.model else l.model,
      tokenizer := if s.tokenizer.Some? then labels.tokenizer else l.tokenizer,
      maxSteps := if s.maxSteps.Some? then labels.maxSteps else l.maxSteps,
      maxNewTokens := if s.maxNewTokens.Some? then labels.maxNewTokens else l.maxNewTokens,
      temperature := if s.temperature.Some? then labels.temperature else l.temperature)
  }

  function LabelLive(l: SourceLabels, s: SettingsFragment, labels: SourceLabels): SourceLabels {
    l.(
      live := if s.live.Some? then labels.live else l.live,
      liveFallbackPolicy := if s.liveFallbackPolicy.Some? then labels.liveFallbackPolicy else l.liveFallbackPolicy,
      format := if s.format.Some? then labels.format else l.format,
      outputMode := if s.outputMode.Some? then labels.outputMode else l.outputMode)
  }

  function LabelExit(l: SourceLabels, s: SettingsFragment, labels: SourceLabels): SourceLabels {
    l.(
      automationAdapter := if s.automationAdapter.Some? then labels.automationAdapter else l.automationAdapter,
      exitPolicy := if s.exitPolicy.Some? then labels.exitPolicy else l.exitPolicy,
      exitThreshold := if s.exitThreshold.Some? then labels.exitThreshold else l.exitThreshold)
  }

  function LabelOutput(l: SourceLabels, s: SettingsFragment, labels: SourceLabels): SourceLabels {
    l.(
      outputFile := if s.outputFile.Some? then labels.outputFile else l.outputFile,
      caseId := if s.caseId.Some? then labels.caseId else l.caseId,
      evidenceBundleDir := if s.evidenceBundleDir.Some? then labels.evidenceBundleDir else l.evidenceBundleDir,
      evidenceBundleArchive := if s.evidenceBundleArchive.Some? then labels.evidenceBundleArchive else l.evidenceBundleArchive)
  }

  function LabelLog(l: SourceLabels, s: SettingsFragment, labels: SourceLabels): SourceLabels {
    l.(
      baselineBundle := if s.baselineBundle.Some? then labels.baselineBundle else l.baselineBundle,
      logMode := if s.log.Some? then labels.logMode else l.logMode)
  }

  function LabelBackend(l: SourceLabels, s: SettingsFragment, labels: SourceLabels): SourceLabels {
    l.(
      vitisConfig := if s.vitisConfig.Some? then labels.vitisConfig else l.vitisConfig,
      vitisCacheDir := if s.vitisCacheDir.Some? then labels.vitisCacheDir else l.vitisCacheDir,
      vitisCacheKey := if s.vitisCacheKey.Some? then labels.vitisCacheKey else l.vitisCacheKey,
      backend := if s.backend.Some? then labels.backend else l.backend)
  }

  function Relabelled(l: SourceLabels, s: SettingsFragment, labels: SourceLabels): SourceLabels {
    LabelBackend(LabelLog(LabelOutput(LabelExit(LabelLive(LabelModel(l, s, labels), s, labels), s, labels), s, labels), s, labels),
                 s, labels)
  }

  /** Each field the fragment has is labelled, with that field's label, and no other. */
  lemma RelabelledAt(l: SourceLabels, s: SettingsFragment, labels: SourceLabels)
    ensures forall f :: LabelAt(Relabelled(l, s, labels), f) == if FragmentAt(s, f).Some? then LabelAt(labels, f) else LabelAt(l, f)
  {
  }

  function LabelsSet(s: SettingsFragment, labels: SourceLabels): map<Field, string> {
    map f: Field | FragmentAt(s, f).Some? && LabelAt(labels, f).Some? :: LabelAt(labels, f).value
  }

  lemma RelabelledLabels(l: SourceLabels, s: SettingsFragment, labels: SourceLabels)
    ensures LabelsOf(Relabelled(l, s, labels)) == LabelsOf(l) + LabelsSet(s, labels)
  {
    RelabelledAt(l, s, labels);
    LabelledFields(labels);
    LabelledFields(l);
    LabelledFields(Relabelled(l, s, labels));
    hide Relabelled, LabelAt, FragmentAt;
  }

  /** The fields with a label are the same in all of them. */
  lemma LabelledFields(l: SourceLabels)
    ensures forall f :: LabelAt(l, f).Some? <==> f !in UNEXPLAINED
  {
  }

  const UNEXPLAINED := {Capability, ToolsDir, AllowedPlugins}

  function WithExtras(v: ConfigValues, cli: Cli): ConfigValues {
    v.(capabilityOverride := if cli.capabilityOverride.Some? then cli.capabilityOverride else v.capabilityOverride,
       toolsDir := if cli.toolsDir.Some? then cli.toolsDir else v.toolsDir,
       allowedPlugins := if cli.allowedPlugins != [] then cli.allowedPlugins else v.allowedPlugins)
  }

  function WithCapability(v: ConfigValues, cli: Cli): ConfigValues {
    v.(capabilityOverride := if cli.capabilityOverride.Some? then cli.capabilityOverride else v.capabilityOverride)
  }

  lemma ExtraSettings(v: ConfigValues, cli: Cli)
    ensures SettingsOf(WithExtras(v, cli)) == SettingsOf(v) + CliExtras(cli)
  {
    assert forall f :: ConfigAt(WithExtras(v, cli), f) == if ExtraAt(cli, f).Some? then ExtraAt(cli, f) else ConfigAt(v, f);
    hide ConfigAt, ExtraAt, WithExtras;
  }

  lemma CapabilitySettings(v: ConfigValues, cli: Cli)
    ensures SettingsOf(WithCapability(v, cli)) == SettingsOf(v) + (CliExtras(cli) - {ToolsDir, AllowedPlugins})
  {
    ExtraSettings(v, cli.(toolsDir := None, allowedPlugins := []));
    CapabilityOnly(cli);
    hide ConfigAt, ExtraAt;
  }

  lemma CapabilityOnly(cli: Cli)
    ensures CliExtras(cli.(toolsDir := None, allowedPlugins := [])) == CliExtras(cli) - {ToolsDir, AllowedPlugins}
  {
  }

  // ---- the configuration itself ----

  class RuntimeConfig {
    var values: ConfigValues

    constructor (task: string)
      ensures values == New(task)
    {
      values := New(task);
    }

    /** `apply_fragment`, which has no statement for the output mode. Its statements follow in groups. */
    method ApplyFragment(fragment: SettingsFragment)
      modifies this
      ensures values == Overlaid(old(values), fragment.(outputMode := None))
      ensures SettingsOf(values) == SettingsOf(old(values)) + (FragmentSettings(fragment) - {Mode})
    {
      ghost var before := values;
      ApplyModel(fragment);
      ApplyLive(fragment);
      ApplyExit(fragment);
      ApplyOutput(fragment);
      ApplyLog(fragment);
      ApplyBackend(fragment);
      hide WithModel, WithLive, WithOutput, WithLog, WithBackend;
      OverlaidWithoutMode(before, fragment);
    }

    method ApplyModel(fragment: SettingsFragment)
      modifies this
      ensures values == WithModel(old(values), fragment)
    {
      if fragment.model.Some? {
        values := values.(model := fragment.model.value);
      }
      if fragment.tokenizer.Some? {
        values := values.(tokenizer := fragment.tokenizer);
      }
      if fragment.maxSteps.Some? {
        values := values.(maxSteps := fragment.maxSteps.value);
      }
      if fragment.maxNewTokens.Some? {
        values := values.(maxNewTokens := fragment.maxNewTokens.value);
      }
      if fragment.temperature.Some? {
        values := values.(temperature := fragment.temperature.value);
      }
    }

    method ApplyLive(fragment: SettingsFragment)
      modifies this
      ensures values == WithLive(old(values), fragment.(outputMode := None))
    {
      if fragment.live.Some? {
        values := values.(live := fragment.live.value);
      }
      if fragment.liveFallbackPolicy.Some? {
        values := values.(liveFallbackPolicy := fragment.liveFallbackPolicy.value);
      }
      if fragment.format.Some? {
        values := values.(format := fragment.format.value);
      }
    }

    method ApplyExit(fragment: SettingsFragment)
      modifies this
      ensures values == WithExit(old(values), fragment)
    {
      if fragment.automationAdapter.Some? {
        values := values.(automationAdapter := fragment.automationAdapter);
      }
      if fragment.exitPolicy.Some? {
        values := values.(exitPolicy := fragment.exitPolicy.value);
      }
      if fragment.exitThreshold.Some? {
        values := values.(exitThreshold := fragment.exitThreshold);
      }
    }

    method ApplyOutput(fragment: SettingsFragment)
      modifies this
      ensures values == WithOutput(old(values), fragment)
    {
      if fragment.outputFile.Some? {
        values := values.(outputFile := fragment.outputFile);
      }
      if fragment.caseId.Some? {
        values := values.(caseId := fragment.caseId);
      }
      if fragment.evidenceBundleDir.Some? {
        values := values.(evidenceBundleDir := fragment.evidenceBundleDir);
      }
      if fragment.evidenceBundleArchive.Some? {
        values := values.(evidenceBundleArchive := fragment.evidenceBundleArchive);
      }
    }

    method ApplyLog(fragment: SettingsFragment)
      modifies this
      ensures values == WithLog(old(values), fragment)
    {
      if fragment.baselineBundle.Some? {
        values := values.(baselineBundle := fragment.baselineBundle);
      }
      if fragment.log.Some? {
        values := values.(logMode := fragment.log.value);
      }
    }

    method ApplyBackend(fragment: SettingsFragment)
      modifies this
      ensures values == WithBackend(old(values), fragment)
    {
      if fragment.vitisConfig.Some? {
        values := values.(vitisConfig := fragment.vitisConfig);
      }
      if fragment.vitisCacheDir.Some? {
        values := values.(vitisCacheDir := fragment.vitisCacheDir);
      }
      if fragment.vitisCacheKey.Some? {
        values := values.(vitisCacheKey := fragment.vitisCacheKey);
      }
      if fragment.backend.Some? {
        values := values.(backend := fragment.backend);
      }
    }

    /** `apply_cli_overrides` */
    method ApplyCliOverrides(cli: Cli)
      modifies this
      ensures values == WithExtras(Overlaid(old(values), CliOptions(cli)), cli)
      ensures SettingsOf(values) == SettingsOf(old(values)) + FragmentSettings(CliOptions(cli)) + CliExtras(cli)
    {
      ghost var before := values;
      OverrideModel(cli);
      OverrideLive(cli);
      OverrideExit(cli);
      OverrideOutput(cli);
      OverrideLog(cli);
      OverrideBackend(cli);
      OverrideExtras(cli);
      hide WithModel, WithLive, WithExit, WithOutput, WithLog, WithBackend, WithExtras, CliOptions;
      OverlaidSettings(before, CliOptions(cli));
      ExtraSettings(Overlaid(before, CliOptions(cli)), cli);
    }

    method OverrideModel(cli: Cli)
      modifies this
      ensures values == WithModel(old(values), CliOptions(cli))
    {
      if cli.model.Some? {
        values := values.(model := cli.model.value);
      }
      if cli.tokenizer.Some? {
        values := values.(tokenizer := cli.tokenizer);
      }
      if cli.maxSteps.Some? {
        values := values.(maxSteps := cli.maxSteps.value);
      }
      if cli.maxNewTokens.Some? {
        values := values.(maxNewTokens := cli.maxNewTokens.value);
      }
      if cli.temperature.Some? {
        values := values.(temperature := cli.temperature.value);
      }
    }

    method OverrideLive(cli: Cli)
      modifies this
      ensures values == WithLive(old(values), CliOptions(cli))
    {
      if cli.live {
        values := values.(live := true);
      }
      if cli.dryRun {
        values := values.(live := false);
      }
      if cli.liveFallbackPolicy.Some? {
        values := values.(liveFallbackPolicy := cli.liveFallbackPolicy.value);
      }
      if cli.format.Some? {
        values := values.(format := cli.format.value);
      }
      if cli.outputMode.Some? {
        values := values.(outputMode := cli.outputMode.value);
      }
    }

    method OverrideExit(cli: Cli)
      modifies this
      ensures values == WithExit(old(values), CliOptions(cli))
    {
      if cli.automationAdapter.Some? {
        values := values.(automationAdapter := cli.automationAdapter);
      }
      if cli.exitPolicy.Some? {
        values := values.(exitPolicy := cli.exitPolicy.value);
      }
      if cli.exitThreshold.Some? {
        values := values.(exitThreshold := cli.exitThreshold);
      }
    }

    method OverrideOutput(cli: Cli)
      modifies this
      ensures values == WithOutput(old(values), CliOptions(cli))
    {
      if cli.outputFile.Some? {
        values := values.(outputFile := cli.outputFile);
      }
      if cli.caseId.Some? {
        values := values.(caseId := cli.caseId);
      }
      if cli.evidenceBundleDir.Some? {
        values := values.(evidenceBundleDir := cli.evidenceBundleDir);
      }
      if cli.evidenceBundleArchive.Some? {
        values := values.(evidenceBundleArchive := cli.evidenceBundleArchive);
      }
    }

    method OverrideLog(cli: Cli)
      modifies this
      ensures values == WithLog(old(values), CliOptions(cli))
    {
      if cli.baselineBundle.Some? {
        values := values.(baselineBundle := cli.baselineBundle);
      }
      if cli.quiet {
        values := values.(logMode := Quiet);
      }
      if cli.verbose {
        values := values.(logMode := Verbose);
      }
    }

    method OverrideBackend(cli: Cli)
      modifies this
      ensures values == WithBackend(old(values), CliOptions(cli))
    {
      if cli.vitisConfig.Some? {
        values := values.(vitisConfig := cli.vitisConfig);
      }
      if cli.vitisCacheDir.Some? {
        values := values.(vitisCacheDir := cli.vitisCacheDir);
      }
      if cli.vitisCacheKey.Some? {
        values := values.(vitisCacheKey := cli.vitisCacheKey);
      }
      if cli.backend.Some? {
        values := values.(backend := cli.backend);
      }
    }

    method OverrideExtras(cli: Cli)
      modifies this
      ensures values == WithExtras(old(values), cli)
    {
      if cli.capabilityOverride.Some? {
        values := values.(capabilityOverride := cli.capabilityOverride);
      }
      if cli.toolsDir.Some? {
        values := values.(toolsDir := cli.toolsDir);
      }
      if cli.allowedPlugins != [] {
        values := values.(allowedPlugins := cli.allowedPlugins);
      }
    }
  }

  lemma OverlaidWithoutMode(v: ConfigValues, s: SettingsFragment)
    ensures SettingsOf(Overlaid(v, s.(outputMode := None))) == SettingsOf(v) + (FragmentSettings(s) - {Mode})
  {
    OverlaidSettings(v, s.(outputMode := None));
    WithoutMode(s);
    hide Overlaid, FragmentAt;
  }

  lemma WithoutMode(s: SettingsFragment)
    ensures FragmentSettings(s.(outputMode := None)) == FragmentSettings(s) - {Mode}
  {
    assert forall f :: FragmentAt(s.(outputMode := None), f) == if f == Mode then None else FragmentAt(s, f);
    hide FragmentAt;
  }

  class ConfigSources {
    var labels: SourceLabels

    constructor (taskSource: string)
      ensures labels == AllFrom(taskSource, "default")
    {
      labels := AllFrom(taskSource, "default");
    }
  }

  /** `apply_fragment_with_source`, which sets the output mode too. */
  method ApplyFragmentWithSource(config: RuntimeConfig, sources: ConfigSources, fragment: SettingsFragment, source: string)
    modifies config, sources
    ensures config.values == Overlaid(old(config.values), fragment)
    ensures sources.labels == Relabelled(old(sources.labels), fragment, AllFrom(source, source))
    ensures SettingsOf(config.values) == SettingsOf(old(config.values)) + FragmentSettings(fragment)
    ensures LabelsOf(sources.labels) == LabelsOf(old(sources.labels)) + LabelsSet(fragment, AllFrom(source, source))
  {
    ghost var before, named := config.values, sources.labels;
    ApplyModelWithSource(config, sources, fragment, source);
    ApplyLiveWithSource(config, sources, fragment, source);
    ApplyExitWithSource(config, sources, fragment, source);
    ApplyOutputWithSource(config, sources, fragment, source);
    ApplyLogWithSource(config, sources, fragment, source);
    ApplyBackendWithSource(config, sources, fragment, source);
    hide WithModel, WithLive, WithExit, WithOutput, WithLog, WithBackend,
         LabelModel, LabelLive, LabelExit, LabelOutput, LabelLog, LabelBackend;
    OverlaidSettings(before, fragment);
    RelabelledLabels(named, fragment, AllFrom(source, source));
  }

  method ApplyModelWithSource(config: RuntimeConfig, sources: ConfigSources, fragment: SettingsFragment, source: string)
    modifies config, sources
    ensures config.values == WithModel(old(config.values), fragment)
    ensures sources.labels == LabelModel(old(sources.labels), fragment, AllFrom(source, source))
  {
    if fragment.model.Some? {
      config.values := config.values.(model := fragment.model.value);
      sources.labels := sources.labels.(model := source);
    }
    if fragment.tokenizer.Some? {
      config.values := config.values.(tokenizer := fragment.tokenizer);
      sources.labels := sources.labels.(tokenizer := source);
    }
    if fragment.maxSteps.Some? {
      config.values := config.values.(maxSteps := fragment.maxSteps.value);
      sources.labels := sources.labels.(maxSteps := source);
    }
    if fragment.maxNewTokens.Some? {
      config.values := config.values.(maxNewTokens := fragment.maxNewTokens.value);
      sources.labels := sources.labels.(maxNewTokens := source);
    }
    if fragment.temperature.Some? {
      config.values := config.values.(temperature := fragment.temperature.value);
      sources.labels := sources.labels.(temperature := source);
    }
  }

  method ApplyLiveWithSource(config: RuntimeConfig, sources: ConfigSources, fragment: SettingsFragment, source: string)
    modifies config, sources
    ensures config.values == WithLive(old(config.values), fragment)
    ensures sources.labels == LabelLive(old(sources.labels), fragment, AllFrom(source, source))
  {
    if fragment.live.Some? {
      config.values := config.values.(live := fragment.live.value);
      sources.labels := sources.labels.(live := source);
    }
    if fragment.liveFallbackPolicy.Some? {
      config.values := config.values.(liveFallbackPolicy := fragment.liveFallbackPolicy.value);
      sources.labels := sources.labels.(liveFallbackPolicy := source);
    }
    if fragment.format.Some? {
      config.values := config.values.(format := fragment.format.value);
      sources.labels := sources.labels.(format := source);
    }
    if fragment.outputMode.Some? {
      config.values := config.values.(outputMode := fragment.outputMode.value);
      sources.labels := sources.labels.(outputMode := source);
    }
  }

  method ApplyExitWithSource(config: RuntimeConfig, sources: ConfigSources, fragment: SettingsFragment, source: string)
    modifies config, sources
    ensures config.values == WithExit(old(config.values), fragment)
    ensures sources.labels == LabelExit(old(sources.labels), fragment, AllFrom(source, source))
  {
    if fragment.automationAdapter.Some? {
      config.values := config.values.(automationAdapter := fragment.automationAdapter);
      sources.labels := sources.labels.(automationAdapter := source);
    }
    if fragment.exitPolicy.Some? {
      config.values := config.values.(exitPolicy := fragment.exitPolicy.value);
      sources.labels := sources.labels.(exitPolicy := source);
    }
    if fragment.exitThreshold.Some? {
      config.values := config.values.(exitThreshold := fragment.exitThreshold);
      sources.labels := sources.labels.(exitThreshold := source);
    }
  }

  method ApplyOutputWithSource(config: RuntimeConfig, sources: ConfigSources, fragment: SettingsFragment, source: string)
    modifies config, sources
    ensures config.values == WithOutput(old(config.values), fragment)
    ensures sources.labels == LabelOutput(old(sources.labels), fragment, AllFrom(source, source))
  {
    if fragment.outputFile.Some? {
      config.values := config.values.(outputFile := fragment.outputFile);
      sources.labels := sources.labels.(outputFile := source);
    }
    if fragment.caseId.Some? {
      config.values := config.values.(caseId := fragment.caseId);
      sources.labels := sources.labels.(caseId := source);
    }
    if fragment.evidenceBundleDir.Some? {
      config.values := config.values.(evidenceBundleDir := fragment.evidenceBundleDir);
      sources.labels := sources.labels.(evidenceBundleDir := source);
    }
    if fragment.evidenceBundleArchive.Some? {
      config.values := config.values.(evidenceBundleArchive := fragment.evidenceBundleArchive);
      sources.labels := sources.labels.(evidenceBundleArchive := source);
    }
  }

  method ApplyLogWithSource(config: RuntimeConfig, sources: ConfigSources, fragment: SettingsFragment, source: string)
    modifies config, sources
    ensures config.values == WithLog(old(config.values), fragment)
    ensures sources.labels == LabelLog(old(sources.labels), fragment, AllFrom(source, source))
  {
    if fragment.baselineBundle.Some? {
      config.values := config.values.(baselineBundle := fragment.baselineBundle);
      sources.labels := sources.labels.(baselineBundle := source);
    }
    if fragment.log.Some? {
      config.values := config.values.(logMode := fragment.log.value);
      sources.labels := sources.labels.(logMode := source);
    }
  }

  method ApplyBackendWithSource(config: RuntimeConfig, sources: ConfigSources, fragment: SettingsFragment, source: string)
    modifies config, sources
    ensures config.values == WithBackend(old(config.values), fragment)
    ensures sources.labels == LabelBackend(old(sources.labels), fragment, AllFrom(source, source))
  {
    if fragment.vitisConfig.Some? {
      config.values := config.values.(vitisConfig := fragment.vitisConfig);
      sources.labels := sources.labels.(vitisConfig := source);
    }
    if fragment.vitisCacheDir.Some? {
      config.values := config.values.(vitisCacheDir := fragment.vitisCacheDir);
      sources.labels := sources.labels.(vitisCacheDir := source);
    }
    if fragment.vitisCacheKey.Some? {
      config.values := config.values.(vitisCacheKey := fragment.vitisCacheKey);
      sources.labels := sources.labels.(vitisCacheKey := source);
    }
    if fragment.backend.Some? {
      config.values := config.values.(backend := fragment.backend);
      sources.labels := sources.labels.(backend := source);
    }
  }

  /** `apply_cli_overrides_with_source`, which has no statements for the tools directory and the plugins. */
  method ApplyCliOverridesWithSource(config: RuntimeConfig, sources: ConfigSources, cli: Cli)
    modifies config, sources
    ensures config.values == WithCapability(Overlaid(old(config.values), CliOptions(cli)), cli)
    ensures sources.labels == Relabelled(old(sources.labels), CliOptions(cli), CliLabels(cli))
    ensures SettingsOf(config.values)
         == SettingsOf(old(config.values)) + FragmentSettings(CliOptions(cli)) + (CliExtras(cli) - {ToolsDir, AllowedPlugins})
    ensures LabelsOf(sources.labels) == LabelsOf(old(sources.labels)) + LabelsSet(CliOptions(cli), CliLabels(cli))
  {
    ghost var before, named := config.values, sources.labels;
    OverrideModelWithSource(config, sources, cli);
    OverrideLiveWithSource(config, sources, cli);
    OverrideExitWithSource(config, sources, cli);
    OverrideOutputWithSource(config, sources, cli);
    OverrideLogWithSource(config, sources, cli);
    OverrideBackendWithSource(config, sources, cli);
    OverrideCapability(config, cli);
    hide WithModel, WithLive, WithExit, WithOutput, WithLog, WithBackend,
         LabelModel, LabelLive, LabelExit, LabelOutput, LabelLog, LabelBackend, CliOptions, CliLabels, WithCapability;
    OverlaidSettings(before, CliOptions(cli));
    CapabilitySettings(Overlaid(before, CliOptions(cli)), cli);
    RelabelledLabels(named, CliOptions(cli), CliLabels(cli));
  }

  method OverrideModelWithSource(config: RuntimeConfig, sources: ConfigSources, cli: Cli)
    modifies config, sources
    ensures config.values == WithModel(old(config.values), CliOptions(cli))
    ensures sources.labels == LabelModel(old(sources.labels), CliOptions(cli), CliLabels(cli))
  {
    ghost var options, named := CliOptions(cli), CliLabels(cli);
    assert options.model == cli.model && named.model == "cli --model";
    assert options.tokenizer == cli.tokenizer && named.tokenizer == "cli --tokenizer";
    assert options.maxSteps == cli.maxSteps && named.maxSteps == "cli --max-steps";
    assert options.maxNewTokens == cli.maxNewTokens && named.maxNewTokens == "cli --max-new-tokens";
    assert options.temperature == cli.temperature && named.temperature == "cli --temperature";
    hide CliOptions, CliLabels;
    if cli.model.Some? {
      config.values := config.values.(model := cli.model.value);
      sources.labels := sources.labels.(model := "cli --model");
    }
    if cli.tokenizer.Some? {
      config.values := config.values.(tokenizer := cli.tokenizer);
      sources.labels := sources.labels.(tokenizer := "cli --tokenizer");
    }
    if cli.maxSteps.Some? {
      config.values := config.values.(maxSteps := cli.maxSteps.value);
      sources.labels := sources.labels.(maxSteps := "cli --max-steps");
    }
    if cli.maxNewTokens.Some? {
      config.values := config.values.(maxNewTokens := cli.maxNewTokens.value);
      sources.labels := sources.labels.(maxNewTokens := "cli --max-new-tokens");
    }
    if cli.temperature.Some? {
      config.values := config.values.(temperature := cli.temperature.value);
      sources.labels := sources.labels.(temperature := "cli --temperature");
    }
  }

  method OverrideLiveWithSource(config: RuntimeConfig, sources: ConfigSources, cli: Cli)
    modifies config, sources
    ensures config.values == WithLive(old(config.values), CliOptions(cli))
    ensures sources.labels == LabelLive(old(sources.labels), CliOptions(cli), CliLabels(cli))
  {
    ghost var options, named := CliOptions(cli), CliLabels(cli);
    assert options.live == (if cli.dryRun then Some(false) else if cli.live then Some(true) else None);
    assert named.live == if cli.dryRun then "cli --dry-run" else "cli --live";
    assert options.liveFallbackPolicy == cli.liveFallbackPolicy && named.liveFallbackPolicy == "cli --live-fallback-policy";
    assert options.format == cli.format && named.format == "cli --format";
    assert options.outputMode == cli.outputMode && named.outputMode == "cli --output-mode";
    hide CliOptions, CliLabels;
    if cli.live {
      config.values := config.values.(live := true);
      sources.labels := sources.labels.(live := "cli --live");
    }
    if cli.dryRun {
      config.values := config.values.(live := false);
      sources.labels := sources.labels.(live := "cli --dry-run");
    }
    if cli.liveFallbackPolicy.Some? {
      config.values := config.values.(liveFallbackPolicy := cli.liveFallbackPolicy.value);
      sources.labels := sources.labels.(liveFallbackPolicy := "cli --live-fallback-policy");
    }
    if cli.format.Some? {
      config.values := config.values.(format := cli.format.value);
      sources.labels := sources.labels.(format := "cli --format");
    }
    if cli.outputMode.Some? {
      config.values := config.values.(outputMode := cli.outputMode.value);
      sources.labels := sources.labels.(outputMode := "cli --output-mode");
    }
  }

  method OverrideExitWithSource(config: RuntimeConfig, sources: ConfigSources, cli: Cli)
    modifies config, sources
    ensures config.values == WithExit(old(config.values), CliOptions(cli))
    ensures sources.labels == LabelExit(old(sources.labels), CliOptions(cli), CliLabels(cli))
  {
    ghost var options, named := CliOptions(cli), CliLabels(cli);
    assert options.automationAdapter == cli.automationAdapter && named.automationAdapter == "cli --automation-adapter";
    assert options.exitPolicy == cli.exitPolicy && named.exitPolicy == "cli --exit-policy";
    assert options.exitThreshold == cli.exitThreshold && named.exitThreshold == "cli --exit-threshold";
    hide CliOptions, CliLabels;
    if cli.automationAdapter.Some? {
      config.values := config.values.(automationAdapter := cli.automationAdapter);
      sources.labels := sources.labels.(automationAdapter := "cli --automation-adapter");
    }
    if cli.exitPolicy.Some? {
      config.values := config.values.(exitPolicy := cli.exitPolicy.value);
      sources.labels := sources.labels.(exitPolicy := "cli --exit-policy");
    }
    if cli.exitThreshold.Some? {
      config.values := config.values.(exitThreshold := cli.exitThreshold);
      sources.labels := sources.labels.(exitThreshold := "cli --exit-threshold");
    }
  }

  method OverrideOutputWithSource(config: RuntimeConfig, sources: ConfigSources, cli: Cli)
    modifies config, sources
    ensures config.values == WithOutput(old(config.values), CliOptions(cli))
    ensures sources.labels == LabelOutput(old(sources.labels), CliOptions(cli), CliLabels(cli))
  {
    ghost var options, named := CliOptions(cli), CliLabels(cli);
    assert options.outputFile == cli.outputFile && named.outputFile == "cli --output-file";
    assert options.caseId == cli.caseId && named.caseId == "cli --case-id";
    assert options.evidenceBundleDir == cli.evidenceBundleDir && named.evidenceBundleDir == "cli --evidence-bundle-dir";
    assert options.evidenceBundleArchive == cli.evidenceBundleArchive && named.evidenceBundleArchive == "cli --evidence-bundle-archive";
    hide CliOptions, CliLabels;
    if cli.outputFile.Some? {
      config.values := config.values.(outputFile := cli.outputFile);
      sources.labels := sources.labels.(outputFile := "cli --output-file");
    }
    if cli.caseId.Some? {
      config.values := config.values.(caseId := cli.caseId);
      sources.labels := sources.labels.(caseId := "cli --case-id");
    }
    if cli.evidenceBundleDir.Some? {
      config.values := config.values.(evidenceBundleDir := cli.evidenceBundleDir);
      sources.labels := sources.labels.(evidenceBundleDir := "cli --evidence-bundle-dir");
    }
    if cli.evidenceBundleArchive.Some? {
      config.values := config.values.(evidenceBundleArchive := cli.evidenceBundleArchive);
      sources.labels := sources.labels.(evidenceBundleArchive := "cli --evidence-bundle-archive");
    }
  }

  method OverrideLogWithSource(config: RuntimeConfig, sources: ConfigSources, cli: Cli)
    modifies config, sources
    ensures config.values == WithLog(old(config.values), CliOptions(cli))
    ensures sources.labels == LabelLog(old(sources.labels), CliOptions(cli), CliLabels(cli))
  {
    ghost var options, named := CliOptions(cli), CliLabels(cli);
    assert options.baselineBundle == cli.baselineBundle && named.baselineBundle == "cli --baseline-bundle";
    assert options.log == (if cli.verbose then Some(Verbose) else if cli.quiet then Some(Quiet) else None);
    assert named.logMode == if cli.verbose then "cli --verbose" else "cli --quiet";
    hide CliOptions, CliLabels;
    if cli.baselineBundle.Some? {
      config.values := config.values.(baselineBundle := cli.baselineBundle);
      sources.labels := sources.labels.(baselineBundle := "cli --baseline-bundle");
    }
    if cli.quiet {
      config.values := config.values.(logMode := Quiet);
      sources.labels := sources.labels.(logMode := "cli --quiet");
    }
    if cli.verbose {
      config.values := config.values.(logMode := Verbose);
      sources.labels := sources.labels.(logMode := "cli --verbose");
    }
  }

  method OverrideBackendWithSource(config: RuntimeConfig, sources: ConfigSources, cli: Cli)
    modifies config, sources
    ensures config.values == WithBackend(old(config.values), CliOptions(cli))
    ensures sources.labels == LabelBackend(old(sources.labels), CliOptions(cli), CliLabels(cli))
  {
    ghost var options, named := CliOptions(cli), CliLabels(cli);
    assert options.vitisConfig == cli.vitisConfig && named.vitisConfig == "cli --vitis-config";
    assert options.vitisCacheDir == cli.vitisCacheDir && named.vitisCacheDir == "cli --vitis-cache-dir";
    assert options.vitisCacheKey == cli.vitisCacheKey && named.vitisCacheKey == "cli --vitis-cache-key";
    assert options.backend == cli.backend && named.backend == "cli --backend";
    hide CliOptions, CliLabels;
    if cli.vitisConfig.Some? {
      config.values := config.values.(vitisConfig := cli.vitisConfig);
      sources.labels := sources.labels.(vitisConfig := "cli --vitis-config");
    }
    if cli.vitisCacheDir.Some? {
      config.values := config.values.(vitisCacheDir := cli.vitisCacheDir);
      sources.labels := sources.labels.(vitisCacheDir := "cli --vitis-cache-dir");
    }
    if cli.vitisCacheKey.Some? {
      config.values := config.values.(vitisCacheKey := cli.vitisCacheKey);
      sources.labels := sources.labels.(vitisCacheKey := "cli --vitis-cache-key");
    }
    if cli.backend.Some? {
      config.values := config.values.(backend := cli.backend);
      sources.labels := sources.labels.(backend := "cli --backend");
    }
  }

  method OverrideCapability(config: RuntimeConfig, cli: Cli)
    modifies config
    ensures config.values == WithCapability(old(config.values), cli)
  {
    if cli.capabilityOverride.Some? {
      config.values := config.values.(capabilityOverride := cli.capabilityOverride);
    }
  }
}
