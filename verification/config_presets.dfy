/** What the built-in profiles amount to, and which configurations are refused (cli/src/main.rs). */
module ConfigPresets {
  import opened Wrappers
  import opened Text
  import opened ConfigFields
  import opened ConfigMerge

  // ---- what a profile yields ----

  /** What a profile is about. */
  datatype Budget = Budget(steps: nat, tokens: nat, temperature: real, format: OutputFormat, live: bool, fallsBack: bool)

  /** The budget of a run by its profile's name, in any case of letters; other names leave the defaults. */
  function BudgetOf(profile: Option<string>): Budget {
    var name := if profile.Some? then Lower(profile.value) else "";
    if name == "local-lab" then Budget(6, 192, 0.1, Summary, false, false)
    else if name == "production-triage" then Budget(12, 320, 0.15, Markdown, false, false)
    else if name == "live-model" then Budget(10, 512, 0.2, Json, true, false)
    else if name == "live-fast" then Budget(6, 256, 0.1, Json, true, true)
    else if name == "live-balanced" then Budget(10, 512, 0.2, Json, true, true)
    else if name == "live-deep" then Budget(16, 768, 0.25, Json, true, true)
    else Budget(8, 256, 0.2, Json, false, false)
  }

  /** Something above the built-in profile sets the field. */
  predicate IsSetAbove(i: Inputs, f: Field) {
    f in Stacked(FileLayers(i)) || f in FragmentSettings(i.env) || f in CliSettings(i.cli)
  }

  lemma MergedAt(i: Inputs, f: Field)
    requires !IsSetAbove(i, f) && f != Mode
    ensures (f in PlainSettings(i) <==> f in SettingsOf(New(i.task)) || f in Stacked(BuiltinLayers(i)))
    ensures f in PlainSettings(i) ==>
      PlainSettings(i)[f] == if f in Stacked(BuiltinLayers(i)) then Stacked(BuiltinLayers(i))[f] else SettingsOf(New(i.task))[f]
  {
    hide BuiltinLayers, FileLayers, Stacked, SettingsOf, New, FragmentSettings, CliSettings;
    var env := Labelled(i.env, "environment variables");
    StackedConcat(BuiltinLayers(i) + FileLayers(i), [env]);
    StackedConcat(BuiltinLayers(i), FileLayers(i));
    StackedOne(env);
  }

  lemma PresetAt(i: Inputs, v: ConfigValues, f: Field)
    requires SettingsOf(v) == PlainSettings(i) && !IsSetAbove(i, f) && f != Mode
    ensures var preset := if i.profile.Some? then BuiltinProfile(i.profile.value) else None;
      ConfigAt(v, f)
        == if preset.Some? && FragmentAt(preset.value, f).Some? then FragmentAt(preset.value, f) else ConfigAt(New(i.task), f)
  {
    hide BuiltinProfile, SettingsOf, New, Stacked, ConfigAt, FragmentAt, PlainSettings, IsSetAbove;
    MergedAt(i, f);
    SettingsAt(v, f);
    SettingsAt(New(i.task), f);
    if BuiltinLayers(i) != [] {
      StackedOne(BuiltinLayers(i)[0]);
      assert BuiltinLayers(i) == [BuiltinLayers(i)[0]];
    } else {
      assert Stacked(BuiltinLayers(i)) == map[] by {
        NothingHere();
      }
    }
  }

  lemma NothingHere()
    ensures Stacked([]) == map[]
  {
  }

  function BudgetFragment(b: Budget): SettingsFragment {
    EMPTY.(maxSteps := Some(b.steps), maxNewTokens := Some(b.tokens), temperature := Some(Real(b.temperature)),
           format := Some(b.format), live := Some(b.live),
           liveFallbackPolicy := if b.fallsBack then Some(DryRunOnError) else None)
  }

  lemma PresetBudget(name: string)
    ensures BuiltinProfile(name).Some? ==> BuiltinProfile(name).value == BudgetFragment(BudgetOf(Some(name)))
    ensures BuiltinProfile(name).None? ==> BudgetOf(Some(name)) == Budget(8, 256, 0.2, Json, false, false)
  {
  }

  lemma NoPresetBudget()
    ensures BudgetOf(None) == Budget(8, 256, 0.2, Json, false, false)
  {
    assert |""| == 0;
  }

  /** A field that nothing above the built-in profile sets. */
  lemma BudgetShows(i: Inputs, v: ConfigValues, f: Field)
    requires SettingsOf(v) == PlainSettings(i) && !IsSetAbove(i, f) && f != Mode
    ensures var s, d := BudgetFragment(BudgetOf(i.profile)), New(i.task);
      ConfigAt(v, f) == if FragmentAt(s, f).Some? then FragmentAt(s, f) else ConfigAt(d, f)
  {
    hide BuiltinProfile, IsSetAbove, BudgetOf, SettingsOf, PlainSettings;
    PresetAt(i, v, f);
    if i.profile.Some? {
      PresetBudget(i.profile.value);
    } else {
      NoPresetBudget();
    }
  }

  lemma PresetLimits(i: Inputs, v: ConfigValues)
    requires SettingsOf(v) == PlainSettings(i)
    ensures !IsSetAbove(i, MaxSteps) ==> v.maxSteps == BudgetOf(i.profile).steps
    ensures !IsSetAbove(i, MaxNewTokens) ==> v.maxNewTokens == BudgetOf(i.profile).tokens
    ensures !IsSetAbove(i, Temperature) ==> v.temperature == Real(BudgetOf(i.profile).temperature)
  {
    hide IsSetAbove, BudgetOf, SettingsOf, PlainSettings;
    if !IsSetAbove(i, MaxSteps) { BudgetShows(i, v, MaxSteps); }
    if !IsSetAbove(i, MaxNewTokens) { BudgetShows(i, v, MaxNewTokens); }
    if !IsSetAbove(i, Temperature) { BudgetShows(i, v, Temperature); }
  }

  lemma PresetModes(i: Inputs, v: ConfigValues)
    requires SettingsOf(v) == PlainSettings(i)
    ensures !IsSetAbove(i, Format) ==> v.format == BudgetOf(i.profile).format
    ensures !IsSetAbove(i, Live) ==> v.live == BudgetOf(i.profile).live
    ensures !IsSetAbove(i, Fallback) ==> v.liveFallbackPolicy == if BudgetOf(i.profile).fallsBack then DryRunOnError else NoFallback
  {
    hide IsSetAbove, BudgetOf, SettingsOf, PlainSettings;
    if !IsSetAbove(i, Format) { BudgetShows(i, v, Format); }
    if !IsSetAbove(i, Live) { BudgetShows(i, v, Live); }
    if !IsSetAbove(i, Fallback) { BudgetShows(i, v, Fallback); }
  }

  /** The configuration a run gets has the budget of its profile, field by field, unless the file, the
      environment or the command line sets the field. */
  lemma PresetsYield(i: Inputs, v: ConfigValues)
    requires SettingsOf(v) == PlainSettings(i)
    ensures var b, view := BudgetOf(i.profile), FromRuntime(v);
      && (!IsSetAbove(i, MaxSteps) ==> view.maxSteps == b.steps)
      && (!IsSetAbove(i, MaxNewTokens) ==> view.maxNewTokens == b.tokens)
      && (!IsSetAbove(i, Temperature) ==> view.temperature == Real(b.temperature))
      && (!IsSetAbove(i, Format) ==> view.format == b.format)
      && (!IsSetAbove(i, Live) ==> view.mode == if b.live then "live" else "dry-run")
      && (!IsSetAbove(i, Fallback) ==> view.liveFallbackPolicy == if b.fallsBack then DryRunOnError else NoFallback)
  {
    hide IsSetAbove, BudgetOf, SettingsOf, PlainSettings;
    PresetLimits(i, v);
    PresetModes(i, v);
  }

  /** What no profile sets has its default. */
  lemma DefaultsYield(i: Inputs, v: ConfigValues)
    requires SettingsOf(v) == PlainSettings(i)
    ensures !IsSetAbove(i, Model) ==> v.model == "./models/llm.onnx"
    ensures !IsSetAbove(i, Log) ==> v.logMode == Normal
    ensures !IsSetAbove(i, Exit) ==> v.exitPolicy == NoExitPolicy
  {
    hide IsSetAbove, BudgetOf, SettingsOf, PlainSettings;
    if !IsSetAbove(i, Model) { BudgetShows(i, v, Model); }
    if !IsSetAbove(i, Log) { BudgetShows(i, v, Log); }
    if !IsSetAbove(i, Exit) { BudgetShows(i, v, Exit); }
  }

  // ---- which profiles are known ----

  /** The map yields some key that is equal up to case, if there is one. */
  ghost predicate YieldsMatches(i: Inputs) {
    i.profile.Some? && i.file.Some? ==>
      forall key | key in i.file.value.profiles && Lower(key) == Lower(i.profile.value) ::
        i.firstMatch(i.profile.value) in i.file.value.profiles && Lower(i.firstMatch(i.profile.value)) == Lower(i.profile.value)
  }

  /** A profile is refused exactly if it is none of the six, in any case of letters, and the file has none of
      that name, in any case of letters. A profile of the very name is preferred. */
  lemma ProfileIsUnknownExactly(i: Inputs)
    requires YieldsMatches(i)
    ensures ProfileIsUnknown(i) <==>
      && i.profile.Some?
      && Lower(i.profile.value) !in {"local-lab", "production-triage", "live-model", "live-fast", "live-balanced", "live-deep"}
      && (i.file.Some? ==> forall key | key in i.file.value.profiles :: Lower(key) != Lower(i.profile.value))
    ensures i.profile.Some? && i.file.Some? && i.profile.value in i.file.value.profiles ==>
      FileProfile(i) == Some(i.file.value.profiles[i.profile.value])
  {
    hide Lower, Preset, FallingBack;
  }

  // ---- what the command line sets ----

  /** An option of the command line is the setting. */
  lemma OptionWins(i: Inputs, v: ConfigValues, f: Field)
    requires SettingsOf(v) == PlainSettings(i)
    ensures FragmentAt(CliOptions(i.cli), f).Some? ==> ConfigAt(v, f) == FragmentAt(CliOptions(i.cli), f)
  {
    hide FragmentAt, SettingsOf, New, Stacked, FragmentLayers, CliOptions;
    SettingsAt(v, f);
    NoOverlap(i.cli, f);
  }

  lemma NoOverlap(cli: Cli, f: Field)
    ensures FragmentAt(CliOptions(cli), f).Some? ==> f !in CliExtras(cli)
  {
    hide CliOptions;
    OnlyExtras(cli);
    NoneUnexplained(CliOptions(cli));
  }

  /** Whatever the profile, the file and the environment say, the view shows what the command line sets. */
  lemma ModelOptionsWin(i: Inputs, v: ConfigValues)
    requires SettingsOf(v) == PlainSettings(i)
    ensures var view, cli := FromRuntime(v), i.cli;
      && (cli.model.Some? ==> view.model == cli.model.value)
      && (cli.tokenizer.Some? ==> view.tokenizer == cli.tokenizer)
      && (cli.maxSteps.Some? ==> view.maxSteps == cli.maxSteps.value)
      && (cli.maxNewTokens.Some? ==> view.maxNewTokens == cli.maxNewTokens.value)
      && (cli.temperature.Some? ==> view.temperature == cli.temperature.value)
  {
    hide SettingsOf, PlainSettings, CliSettings;
    OptionWins(i, v, Model);
    OptionWins(i, v, Tokenizer);
    OptionWins(i, v, MaxSteps);
    OptionWins(i, v, MaxNewTokens);
    OptionWins(i, v, Temperature);
  }

  /** The same of these options. */
  lemma ReportOptionsWin(i: Inputs, v: ConfigValues)
    requires SettingsOf(v) == PlainSettings(i)
    ensures var view, cli := FromRuntime(v), i.cli;
      && (cli.liveFallbackPolicy.Some? ==> view.liveFallbackPolicy == cli.liveFallbackPolicy.value)
      && (cli.format.Some? ==> view.format == cli.format.value)
      && (cli.automationAdapter.Some? ==> view.automationAdapter == cli.automationAdapter)
      && (cli.exitPolicy.Some? ==> view.exitPolicy == cli.exitPolicy.value)
      && (cli.exitThreshold.Some? ==> view.exitThreshold == cli.exitThreshold)
  {
    hide SettingsOf, PlainSettings, CliSettings;
    OptionWins(i, v, Fallback);
    OptionWins(i, v, Format);
    OptionWins(i, v, Adapter);
    OptionWins(i, v, Exit);
    OptionWins(i, v, Threshold);
  }

  /** And of these. */
  lemma OutputOptionsWin(i: Inputs, v: ConfigValues)
    requires SettingsOf(v) == PlainSettings(i)
    ensures var view, cli := FromRuntime(v), i.cli;
      && (cli.outputFile.Some? ==> view.outputFile == cli.outputFile)
      && (cli.caseId.Some? ==> view.caseId == cli.caseId)
      && (cli.evidenceBundleDir.Some? ==> view.evidenceBundleDir == cli.evidenceBundleDir)
      && (cli.evidenceBundleArchive.Some? ==> view.evidenceBundleArchive == cli.evidenceBundleArchive)
      && (cli.baselineBundle.Some? ==> view.baselineBundle == cli.baselineBundle)
  {
    hide SettingsOf, PlainSettings, CliSettings;
    OptionWins(i, v, OutputFile);
    OptionWins(i, v, CaseId);
    OptionWins(i, v, BundleDir);
    OptionWins(i, v, BundleArchive);
    OptionWins(i, v, Baseline);
  }

  /** And of these. */
  lemma BackendOptionsWin(i: Inputs, v: ConfigValues)
    requires SettingsOf(v) == PlainSettings(i)
    ensures var view, cli := FromRuntime(v), i.cli;
      && (cli.vitisConfig.Some? ==> view.vitisConfig == cli.vitisConfig)
      && (cli.vitisCacheDir.Some? ==> view.vitisCacheDir == cli.vitisCacheDir)
      && (cli.vitisCacheKey.Some? ==> view.vitisCacheKey == cli.vitisCacheKey)
      && (cli.backend.Some? ==> view.backend == cli.backend)
  {
    hide SettingsOf, PlainSettings, CliSettings;
    OptionWins(i, v, VitisConfig);
    OptionWins(i, v, VitisCacheDir);
    OptionWins(i, v, VitisCacheKey);
    OptionWins(i, v, Backend);
  }

  /** Of two flags that contradict each other a dry run and verbose prevail. */
  lemma FlagsWin(i: Inputs, v: ConfigValues)
    requires SettingsOf(v) == PlainSettings(i)
    ensures var view, cli := FromRuntime(v), i.cli;
      && (cli.dryRun ==> !view.live && view.mode == "dry-run")
      && (cli.live && !cli.dryRun ==> view.live && view.mode == "live")
      && (cli.verbose ==> view.logMode == Verbose)
      && (cli.quiet && !cli.verbose ==> view.logMode == Quiet)
  {
    hide SettingsOf, PlainSettings, CliSettings;
    OptionWins(i, v, Live);
    OptionWins(i, v, Log);
  }

  // ---- which configurations are refused ----

  predicate IsLetterOrDigit(c: char) {
    'a' <= c <= 'z' || 'A' <= c <= 'Z' || '0' <= c <= '9'
  }

  /** One to 128 letters, digits and separators, but for white space around them. */
  predicate IsCaseId(caseId: string) {
    var id := Trim(caseId);
    1 <= |id| <= 128 && forall c | c in id :: IsLetterOrDigit(c) || c == '-' || c == '_' || c == '.' || c == ':'
  }

  lemma {:induction false} PlainBytes(s: string)
    requires forall c | c in s :: IsCaseChar(c)
    ensures Bytes(s) == |s|
  {
    if s != "" {
      assert s[0] in s && IsCaseChar(s[0]);
      SeparatorIsAscii(s[0]);
      PlainBytes(s[1..]);
    }
  }

  lemma SeparatorIsAscii(c: char)
    ensures IsCaseChar(c) <==> IsLetterOrDigit(c) || c == '-' || c == '_' || c == '.' || c == ':'
    ensures IsCaseChar(c) ==> c as int < 0x80
  {
  }

  lemma {:induction false} NoFewerBytes(s: string)
    ensures Bytes(s) >= |s|
  {
    if s != "" {
      NoFewerBytes(s[1..]);
    }
  }

  /** The bound on bytes is one on characters. */
  lemma CaseIdsExactly(caseId: string)
    ensures CaseIdError(caseId).None? <==> IsCaseId(caseId)
    ensures CaseIdError(caseId) == Some(BlankCaseId) <==> Trim(caseId) == ""
    ensures CaseIdError(caseId) == Some(BadCaseId) ==> exists c :: c in Trim(caseId) && !IsCaseChar(c)
    ensures CaseIdError(caseId) == Some(LongCaseId) ==> |Trim(caseId)| > 32
  {
    hide Trim, IsCaseChar, Bytes, IsLetterOrDigit;
    var id := Trim(caseId);
    forall c ensures IsCaseChar(c) <==> IsLetterOrDigit(c) || c == '-' || c == '_' || c == '.' || c == ':' {
      SeparatorIsAscii(c);
    }
    if forall c | c in id :: IsCaseChar(c) {
      PlainBytes(id);
    }
    FewBytes(id);
    NoFewerBytes(id);
  }

  lemma {:induction false} FewBytes(s: string)
    ensures Bytes(s) <= 4 * |s|
  {
    if s != "" {
      FewBytes(s[1..]);
    }
  }

  predicate IsDegree(t: Float) {
    t.Real? && 0.0 <= t.x <= 2.0
  }

  /** A configuration is accepted exactly if it has steps and tokens, a temperature from 0 to 2, JSON for an
      adapter, a policy for a threshold, a proper case identifier, and a baseline that is there. Else the first of
      these that fails is the error. */
  lemma RefusedExactly(v: ConfigValues, kindOf: string -> PathKind)
    ensures Validation(v, kindOf).None? <==>
      && v.maxSteps >= 1 && v.maxNewTokens >= 1 && IsDegree(v.temperature)
      && (v.automationAdapter.Some? ==> v.format == Json)
      && (v.exitThreshold.Some? ==> v.exitPolicy == SeverityThreshold)
      && (v.caseId.Some? ==> IsCaseId(v.caseId.value))
      && (v.baselineBundle.Some? ==> kindOf(v.baselineBundle.value).Directory? || kindOf(v.baselineBundle.value).RawObservations?)
    ensures Validation(v, kindOf) == Some(NoSteps) <==> v.maxSteps == 0
    ensures Validation(v, kindOf) == Some(NoTokens) <==> v.maxNewTokens == 0 && v.maxSteps >= 1
    ensures Validation(v, kindOf) == Some(BadTemperature) <==> !IsDegree(v.temperature) && v.maxSteps >= 1 && v.maxNewTokens >= 1
    ensures Validation(v, kindOf) == Some(AdapterNeedsJson) ==> v.automationAdapter.Some? && v.format != Json
    ensures Validation(v, kindOf) == Some(ThresholdNeedsPolicy) ==> v.exitThreshold.Some? && v.exitPolicy == NoExitPolicy
    ensures Validation(v, kindOf) == Some(BadBundleName) ==> v.baselineBundle.Some? && kindOf(v.baselineBundle.value).OtherFile?
    ensures Validation(v, kindOf) == Some(MissingBundle) ==> v.baselineBundle.Some? && kindOf(v.baselineBundle.value).Nothing?
    ensures Validation(v, kindOf) in {Some(BlankCaseId), Some(LongCaseId), Some(BadCaseId)} ==>
      v.caseId.Some? && !IsCaseId(v.caseId.value) && Validation(v, kindOf) == CaseIdError(v.caseId.value)
  {
    hide CaseIdError, IsCaseId;
    if v.caseId.Some? {
      CaseIdsExactly(v.caseId.value);
      CaseErrors(v.caseId.value);
    }
  }

  lemma CaseErrors(caseId: string)
    ensures CaseIdError(caseId) in {None, Some(BlankCaseId), Some(LongCaseId), Some(BadCaseId)}
  {
  }
}
