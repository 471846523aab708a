/** The two configuration mergers (cli/src/main.rs): the one that a run uses, and the one that explains
    where each setting comes from. */
module ConfigMerge {
  import opened Wrappers
  import opened Text
  import opened ConfigFields

  datatype FileConfig = FileConfig(
    defaults: SettingsFragment, inferenceBackend: Option<string>, profiles: map<string, SettingsFragment>)

  /** `firstMatch` is the key that a profile map yields first among those equal up to case. */
  datatype Inputs = Inputs(
    task: string,
    taskSource: string,
    profile: Option<string>,
    file: Option<FileConfig>,
    path: Option<string>,
    env: SettingsFragment,
    cli: Cli,
    firstMatch: string -> string)

  function Preset(steps: nat, tokens: nat, temperature: real, format: OutputFormat, live: bool): SettingsFragment {
    EMPTY.(maxSteps := Some(steps), maxNewTokens := Some(tokens), temperature := Some(Real(temperature)),
           format := Some(format), live := Some(live))
  }

  function FallingBack(s: SettingsFragment): SettingsFragment {
    s.(liveFallbackPolicy := Some(DryRunOnError))
  }

  function BuiltinProfile(name: string): Option<SettingsFragment> {
    match Lower(name)
    case "local-lab" => Some(Preset(6, 192, 0.1, Summary, false))
    case "production-triage" => Some(Preset(12, 320, 0.15, Markdown, false))
    case "live-model" => Some(Preset(10, 512, 0.2, Json, true))
    case "live-fast" => Some(FallingBack(Preset(6, 256, 0.1, Json, true)))
    case "live-balanced" => Some(FallingBack(Preset(10, 512, 0.2, Json, true)))
    case "live-deep" => Some(FallingBack(Preset(16, 768, 0.25, Json, true)))
    case _ => None
  }

  /** The exact name, else one that is equal up to case. */
  function LookupProfile(i: Inputs, profiles: map<string, SettingsFragment>, name: string): Option<SettingsFragment> {
    var key := i.firstMatch(name);
    if name in profiles then Some(profiles[name])
    else if key in profiles && Lower(key) == Lower(name) then Some(profiles[key])
    else None
  }

  // ---- validation ----

  datatype PathKind = Directory | RawObservations | OtherFile | Nothing

  datatype ConfigError =
    | UnknownProfile(name: string, path: Option<string>)
    | NoSteps | NoTokens | BadTemperature | AdapterNeedsJson | ThresholdNeedsPolicy
    | BlankCaseId | LongCaseId | BadCaseId | BadBundleName | MissingBundle

  predicate IsCaseChar(c: char) {
    '0' <= c <= '9' || 'A' <= c <= 'Z' || 'a' <= c <= 'z' || c in "-_.:"
  }

  /** The length of the UTF-8 form. */
  function Bytes(s: string): nat {
    if s == "" then 0
    else
      var c := s[0] as int;
      (if c < 0x80 then 1 else if c < 0x800 then 2 else if c < 0x1_0000 then 3 else 4) + Bytes(s[1..])
  }

  function CaseIdError(caseId: string): Option<ConfigError> {
    var trimmed := Trim(caseId);
    if trimmed == "" then Some(BlankCaseId)
    else if Bytes(trimmed) > 128 then Some(LongCaseId)
    else if exists c | c in trimmed :: !IsCaseChar(c) then Some(BadCaseId)
    else None
  }

  function BundleError(kind: PathKind): Option<ConfigError> {
    match kind
    case Directory => None
    case RawObservations => None
    case OtherFile => Some(BadBundleName)
    case Nothing => Some(MissingBundle)
  }

  /** `validate_runtime_config` */
  function Validation(v: ConfigValues, kindOf: string -> PathKind): Option<ConfigError> {
    if v.maxSteps == 0 then Some(NoSteps)
    else if v.maxNewTokens == 0 then Some(NoTokens)
    else if v.temperature.NotANumber? || v.temperature.x < 0.0 || v.temperature.x > 2.0 then Some(BadTemperature)
    else if v.automationAdapter.Some? && v.format != Json then Some(AdapterNeedsJson)
    else if v.exitPolicy == NoExitPolicy && v.exitThreshold.Some? then Some(ThresholdNeedsPolicy)
    else if v.caseId.Some? && CaseIdError(v.caseId.value).Some? then CaseIdError(v.caseId.value)
    else if v.baselineBundle.Some? then BundleError(kindOf(v.baselineBundle.value))
    else None
  }

  // ---- the layers ----

  /** Settings with the label of their source for each field. */
  datatype Layer = Layer(settings: Settings, labels: map<Field, string>)

  function Labelled(s: SettingsFragment, source: string): (layer: Layer)
    ensures layer.settings == FragmentSettings(s) && layer.labels == LabelsSet(s, AllFrom(source, source))
  {
    Layer(FragmentSettings(s), LabelsSet(s, AllFrom(source, source)))
  }

  function WithPath(source: string, path: Option<string>): string {
    if path.Some? then source + " (" + path.value + ")" else source
  }

  function BuiltinLayers(i: Inputs): seq<Layer> {
    if i.profile.Some? && BuiltinProfile(i.profile.value).Some?
    then [Labelled(BuiltinProfile(i.profile.value).value, "built-in profile '" + i.profile.value + "'")]
    else []
  }

  function BackendFragment(backend: string): SettingsFragment {
    EMPTY.(backend := Some(backend))
  }

  function InferenceLayers(i: Inputs, file: FileConfig): seq<Layer> {
    if file.inferenceBackend.Some? && file.inferenceBackend.value != "auto"
    then [Labelled(BackendFragment(file.inferenceBackend.value), WithPath("config [inference]", i.path))]
    else []
  }

  function FileProfile(i: Inputs): Option<SettingsFragment> {
    if i.profile.Some? && i.file.Some? then LookupProfile(i, i.file.value.profiles, i.profile.value) else None
  }

  function FileProfileLayers(i: Inputs): seq<Layer> {
    if FileProfile(i).Some?
    then [Labelled(FileProfile(i).value, WithPath("config profile '" + i.profile.value + "'", i.path))]
    else []
  }

  function FileLayers(i: Inputs): seq<Layer> {
    match i.file
    case None => []
    case Some(file) => [Labelled(file.defaults, WithPath("config defaults", i.path))] + InferenceLayers(i, file) + FileProfileLayers(i)
  }

  function CliSettings(cli: Cli): Settings {
    FragmentSettings(CliOptions(cli)) + CliExtras(cli)
  }

  /** What the explaining merger takes from the command line. */
  function ExplainedCliSettings(cli: Cli): Settings {
    FragmentSettings(CliOptions(cli)) + (CliExtras(cli) - {ToolsDir, AllowedPlugins})
  }

  function CliLayer(cli: Cli): Layer {
    Layer(ExplainedCliSettings(cli), LabelsSet(CliOptions(cli), CliLabels(cli)))
  }

  function DefaultLayer(i: Inputs): Layer {
    Layer(SettingsOf(New(i.task)), LabelsOf(AllFrom(i.taskSource, "default")))
  }

  function FragmentLayers(i: Inputs): seq<Layer> {
    BuiltinLayers(i) + FileLayers(i) + [Labelled(i.env, "environment variables")]
  }

  predicate ProfileIsUnknown(i: Inputs) {
    i.profile.Some? && BuiltinProfile(i.profile.value).None? && FileProfile(i).None?
  }

  /** Lowest first. */
  function AllLayers(i: Inputs): seq<Layer> {
    [DefaultLayer(i)] + FragmentLayers(i) + [CliLayer(i.cli)]
  }

  function Stacked(layers: seq<Layer>): Settings {
    if layers == [] then map[] else Stacked(layers[..|layers| - 1]) + layers[|layers| - 1].settings
  }

  function StackedLabels(layers: seq<Layer>): map<Field, string> {
    if layers == [] then map[] else StackedLabels(layers[..|layers| - 1]) + layers[|layers| - 1].labels
  }

  function PlainSettings(i: Inputs): Settings {
    SettingsOf(New(i.task)) + (Stacked(FragmentLayers(i)) - {Mode}) + CliSettings(i.cli)
  }

  lemma MergeAssociates<V>(a: map<Field, V>, b: map<Field, V>, c: map<Field, V>)
    ensures a + b + c == a + (b + c)
  {
  }

  lemma {:induction false} StackedConcat(a: seq<Layer>, b: seq<Layer>)
    ensures Stacked(a + b) == Stacked(a) + Stacked(b)
    decreases |b|
  {
    if b == [] {
      assert a + b == a;
    } else {
      var n := |b| - 1;
      assert (a + b)[..|a + b| - 1] == a + b[..n];
      StackedConcat(a, b[..n]);
      MergeAssociates(Stacked(a), Stacked(b[..n]), b[n].settings);
    }
  }

  lemma StackedOne(layer: Layer)
    ensures Stacked([layer]) == layer.settings && StackedLabels([layer]) == layer.labels
  {
    assert [layer][..0] == [];
  }

  lemma StackedSnoc(layers: seq<Layer>, layer: Layer)
    ensures Stacked(layers + [layer]) == Stacked(layers) + layer.settings
    ensures StackedLabels(layers + [layer]) == StackedLabels(layers) + layer.labels
  {
    assert (layers + [layer])[..|layers|] == layers;
  }

  // ---- the mergers ----

  lemma PlainStep(base: Settings, done: seq<Layer>, layer: Layer)
    ensures base + (Stacked(done) - {Mode}) + (layer.settings - {Mode}) == base + (Stacked(done + [layer]) - {Mode})
  {
    StackedSnoc(done, layer);
    hide Stacked;
    MergeAssociates(base, Stacked(done) - {Mode}, layer.settings - {Mode});
    RestrictedMerge(Stacked(done), layer.settings);
  }

  lemma RestrictedMerge(a: Settings, b: Settings)
    ensures (a - {Mode}) + (b - {Mode}) == (a + b) - {Mode}
  {
  }

  lemma NothingStacked(base: Settings)
    ensures base + (Stacked([]) - {Mode}) == base
  {
  }

  /** The direct assignment of the `[inference]` backend. */
  method SetBackend(config: RuntimeConfig, backend: string)
    modifies config
    ensures SettingsOf(config.values) == SettingsOf(old(config.values)) + FragmentSettings(BackendFragment(backend))
    ensures SettingsOf(config.values)
         == SettingsOf(old(config.values)) + (FragmentSettings(BackendFragment(backend)) - {Mode})
  {
    ghost var before := config.values;
    config.values := config.values.(backend := Some(backend));
    BackendOnly(before, backend);
  }

  lemma BackendOnly(v: ConfigValues, backend: string)
    ensures Overlaid(v, BackendFragment(backend)) == v.(backend := Some(backend))
    ensures SettingsOf(v.(backend := Some(backend))) == SettingsOf(v) + FragmentSettings(BackendFragment(backend))
    ensures FragmentSettings(BackendFragment(backend)) == FragmentSettings(BackendFragment(backend)) - {Mode}
  {
    OverlaidSettings(v, BackendFragment(backend));
  }

  method SetBackendWithSource(config: RuntimeConfig, sources: ConfigSources, backend: string, source: string)
    modifies config, sources
    ensures SettingsOf(config.values) == SettingsOf(old(config.values)) + FragmentSettings(BackendFragment(backend))
    ensures LabelsOf(sources.labels) == LabelsOf(old(sources.labels)) + LabelsSet(BackendFragment(backend), AllFrom(source, source))
  {
    ghost var named := sources.labels;
    SetBackend(config, backend);
    sources.labels := sources.labels.(backend := source);
    BackendLabel(named, backend, source);
  }

  lemma BackendLabel(l: SourceLabels, backend: string, source: string)
    ensures LabelsOf(l.(backend := source)) == LabelsOf(l) + LabelsSet(BackendFragment(backend), AllFrom(source, source))
  {
    RelabelledLabels(l, BackendFragment(backend), AllFrom(source, source));
    assert Relabelled(l, BackendFragment(backend), AllFrom(source, source)) == l.(backend := source);
  }

  /** The file's layers: its defaults, its `[inference]` section and the profile in it. */
  method ApplyFile(config: RuntimeConfig, i: Inputs, ghost base: Settings, ghost done: seq<Layer>) returns (matched: bool)
    requires SettingsOf(config.values) == base + (Stacked(done) - {Mode})
    modifies config
    ensures SettingsOf(config.values) == base + (Stacked(done + FileLayers(i)) - {Mode})
    ensures matched <==> FileProfile(i).Some?
  {
    hide Stacked, LookupProfile, WithPath, Labelled, SettingsOf, FragmentSettings, BackendFragment;
    matched := false;
    if i.file.None? {
      assert done + FileLayers(i) == done;
      return;
    }
    var file := i.file.value;
    config.ApplyFragment(file.defaults);
    PlainStep(base, done, FileLayers(i)[0]);
    ghost var layers := done + [FileLayers(i)[0]];
    if file.inferenceBackend.Some? && file.inferenceBackend.value != "auto" {
      SetBackend(config, file.inferenceBackend.value);
      PlainStep(base, layers, InferenceLayers(i, file)[0]);
    }
    assert InferenceLayers(i, file) == [] ==> layers + InferenceLayers(i, file) == layers;
    layers := layers + InferenceLayers(i, file);
    assert FileProfileLayers(i) == [] ==> layers + FileProfileLayers(i) == layers;
    if i.profile.Some? {
      var found := LookupProfile(i, file.profiles, i.profile.value);
      if found.Some? {
        config.ApplyFragment(found.value);
        PlainStep(base, layers, FileProfileLayers(i)[0]);
        matched := true;
      }
    }
    assert done + FileLayers(i) == layers + FileProfileLayers(i);
  }

  method ApplyBuiltin(config: RuntimeConfig, i: Inputs)
    modifies config
    ensures SettingsOf(config.values) == SettingsOf(old(config.values)) + (Stacked(BuiltinLayers(i)) - {Mode})
  {
    hide Stacked, BuiltinProfile, Labelled, SettingsOf, FragmentSettings;
    NothingStacked(SettingsOf(config.values));
    if i.profile.Some? && BuiltinProfile(i.profile.value).Some? {
      config.ApplyFragment(BuiltinProfile(i.profile.value).value);
      StackedOne(BuiltinLayers(i)[0]);
    }
  }

  /** `merge_sources` */
  method MergeSources(i: Inputs, kindOf: string -> PathKind) returns (r: Result<RuntimeConfig, ConfigError>)
    ensures r.Success? ==> fresh(r.value) && SettingsOf(r.value.values) == PlainSettings(i) && Validation(r.value.values, kindOf).None?
    ensures r.Failure? ==>
      if ProfileIsUnknown(i) then r.error == UnknownProfile(i.profile.value, i.path)
      else exists v :: SettingsOf(v) == PlainSettings(i) && Validation(v, kindOf) == Some(r.error)
    ensures ProfileIsUnknown(i) ==> r.Failure?
  {
    hide Stacked, Validation, LookupProfile, BuiltinProfile, SettingsOf, FragmentSettings, CliExtras, BuiltinLayers, FileLayers, New;
    var config := new RuntimeConfig(i.task);
    ghost var base := SettingsOf(config.values);
    ApplyBuiltin(config, i);
    var matched := ApplyFile(config, i, base, BuiltinLayers(i));
    if i.profile.Some? && BuiltinProfile(i.profile.value).None? && !matched {
      return Failure(UnknownProfile(i.profile.value, i.path));
    }
    config.ApplyFragment(i.env);
    PlainStep(base, BuiltinLayers(i) + FileLayers(i), Labelled(i.env, "environment variables"));
    ghost var below := SettingsOf(config.values);
    config.ApplyCliOverrides(i.cli);
    MergeAssociates(below, FragmentSettings(CliOptions(i.cli)), CliExtras(i.cli));
    var error := Validation(config.values, kindOf);
    r := if error.Some? then Failure(error.value) else Success(config);
  }

  method ApplyFileWithSources(config: RuntimeConfig, sources: ConfigSources, i: Inputs, ghost done: seq<Layer>)
    returns (matched: bool)
    requires SettingsOf(config.values) == Stacked(done) && LabelsOf(sources.labels) == StackedLabels(done)
    modifies config, sources
    ensures SettingsOf(config.values) == Stacked(done + FileLayers(i))
    ensures LabelsOf(sources.labels) == StackedLabels(done + FileLayers(i))
    ensures matched <==> FileProfile(i).Some?
  {
    hide Stacked, StackedLabels, LookupProfile, WithPath, Labelled, SettingsOf, FragmentSettings, BackendFragment, LabelsOf,
         LabelsSet, AllFrom;
    matched := false;
    if i.file.None? {
      assert done + FileLayers(i) == done;
      return;
    }
    var file := i.file.value;
    ApplyFragmentWithSource(config, sources, file.defaults, WithPath("config defaults", i.path));
    StackedSnoc(done, FileLayers(i)[0]);
    ghost var layers := done + [FileLayers(i)[0]];
    if file.inferenceBackend.Some? && file.inferenceBackend.value != "auto" {
      SetBackendWithSource(config, sources, file.inferenceBackend.value, WithPath("config [inference]", i.path));
      StackedSnoc(layers, InferenceLayers(i, file)[0]);
    }
    assert InferenceLayers(i, file) == [] ==> layers + InferenceLayers(i, file) == layers;
    layers := layers + InferenceLayers(i, file);
    assert FileProfileLayers(i) == [] ==> layers + FileProfileLayers(i) == layers;
    if i.profile.Some? {
      var found := LookupProfile(i, file.profiles, i.profile.value);
      if found.Some? {
        ApplyFragmentWithSource(config, sources, found.value, WithPath("config profile '" + i.profile.value + "'", i.path));
        StackedSnoc(layers, FileProfileLayers(i)[0]);
        matched := true;
      }
    }
    assert done + FileLayers(i) == layers + FileProfileLayers(i);
  }

  method ApplyFragmentsWithSources(config: RuntimeConfig, sources: ConfigSources, i: Inputs) returns (matched: bool)
    requires SettingsOf(config.values) == DefaultLayer(i).settings && LabelsOf(sources.labels) == DefaultLayer(i).labels
    modifies config, sources
    ensures var layers := [DefaultLayer(i)] + BuiltinLayers(i) + FileLayers(i);
            SettingsOf(config.values) == Stacked(layers) && LabelsOf(sources.labels) == StackedLabels(layers)
    ensures matched <==> FileProfile(i).Some?
  {
    StackedOne(DefaultLayer(i));
    hide Stacked, StackedLabels, BuiltinProfile, DefaultLayer, Labelled, FileLayers, FileProfile, SettingsOf, FragmentSettings,
         LabelsOf, LabelsSet, AllFrom;
    if i.profile.Some? && BuiltinProfile(i.profile.value).Some? {
      var source := "built-in profile '" + i.profile.value + "'";
      ApplyFragmentWithSource(config, sources, BuiltinProfile(i.profile.value).value, source);
      StackedSnoc([DefaultLayer(i)], BuiltinLayers(i)[0]);
    }
    assert BuiltinLayers(i) == [] ==> [DefaultLayer(i)] + BuiltinLayers(i) == [DefaultLayer(i)];
    matched := ApplyFileWithSources(config, sources, i, [DefaultLayer(i)] + BuiltinLayers(i));
  }

  lemma LayersInOrder(i: Inputs)
    ensures AllLayers(i)
         == [DefaultLayer(i)] + BuiltinLayers(i) + FileLayers(i) + [Labelled(i.env, "environment variables")] + [CliLayer(i.cli)]
  {
    hide DefaultLayer, BuiltinLayers, FileLayers, Labelled, CliLayer;
  }

  /** `merge_sources_with_explanation` */
  method MergeSourcesWithExplanation(i: Inputs, kindOf: string -> PathKind)
    returns (r: Result<(RuntimeConfig, ConfigSources), ConfigError>)
    ensures r.Success? ==>
      && fresh(r.value.0) && fresh(r.value.1)
      && SettingsOf(r.value.0.values) == Stacked(AllLayers(i)) && LabelsOf(r.value.1.labels) == StackedLabels(AllLayers(i))
      && Validation(r.value.0.values, kindOf).None?
    ensures r.Failure? ==>
      if ProfileIsUnknown(i) then r.error == UnknownProfile(i.profile.value, i.path)
      else exists v :: SettingsOf(v) == Stacked(AllLayers(i)) && Validation(v, kindOf) == Some(r.error)
    ensures ProfileIsUnknown(i) ==> r.Failure?
  {
    hide Stacked, StackedLabels, Validation, BuiltinProfile, Labelled, AllLayers, BuiltinLayers, FileLayers, FileProfile, SettingsOf,
         FragmentSettings, LabelsOf, LabelsSet, AllFrom, New, CliExtras, CliOptions, CliLabels;
    var config := new RuntimeConfig(i.task);
    var sources := new ConfigSources(i.taskSource);
    var matched := ApplyFragmentsWithSources(config, sources, i);
    if i.profile.Some? && BuiltinProfile(i.profile.value).None? && !matched {
      return Failure(UnknownProfile(i.profile.value, i.path));
    }
    ghost var layers := [DefaultLayer(i)] + BuiltinLayers(i) + FileLayers(i);
    var env := Labelled(i.env, "environment variables");
    ApplyFragmentWithSource(config, sources, i.env, "environment variables");
    StackedSnoc(layers, env);
    ghost var below := SettingsOf(config.values);
    ApplyCliOverridesWithSource(config, sources, i.cli);
    MergeAssociates(below, FragmentSettings(CliOptions(i.cli)), CliExtras(i.cli) - {ToolsDir, AllowedPlugins});
    StackedSnoc(layers + [env], CliLayer(i.cli));
    LayersInOrder(i);
    var error := Validation(config.values, kindOf);
    r := if error.Some? then Failure(error.value) else Success((config, sources));
  }

  // ---- the highest layer decides ----

  /** The highest layer that sets the field. */
  function Highest(layers: seq<Layer>, f: Field): (r: Option<nat>)
    ensures r.Some? ==> r.value < |layers| && f in layers[r.value].settings
    ensures r.Some? ==> forall k :: r.value < k < |layers| ==> f !in layers[k].settings
    ensures r.None? ==> forall k :: 0 <= k < |layers| ==> f !in layers[k].settings
  {
    if layers == [] then None
    else if f in layers[|layers| - 1].settings then Some(|layers| - 1)
    else Highest(layers[..|layers| - 1], f)
  }

  lemma {:induction false} StackedIsHighest(layers: seq<Layer>, f: Field)
    ensures f in Stacked(layers) <==> Highest(layers, f).Some?
    ensures f in Stacked(layers) ==> Stacked(layers)[f] == layers[Highest(layers, f).value].settings[f]
  {
    if layers != [] {
      StackedIsHighest(layers[..|layers| - 1], f);
    }
  }

  /** Above the defaults, a layer labels just what it sets. */
  ghost predicate LabelsWhatItSets(layer: Layer) {
    forall f :: f !in UNEXPLAINED ==> (f in layer.labels <==> f in layer.settings)
  }

  lemma {:induction false} LabelOfHighest(layers: seq<Layer>, f: Field)
    requires f !in UNEXPLAINED && forall k :: 1 <= k < |layers| ==> LabelsWhatItSets(layers[k])
    requires layers != [] && f in layers[0].labels
    ensures f in StackedLabels(layers)
    ensures var top := Highest(layers, f);
            var k := if top.Some? then top.value else 0;
            f in layers[k].labels && StackedLabels(layers)[f] == layers[k].labels[f]
    decreases |layers|
  {
    var n := |layers| - 1;
    if n == 0 {
      StackedOne(layers[0]);
      assert layers == [layers[0]];
    } else {
      LabelOfHighest(layers[..n], f);
      assert LabelsWhatItSets(layers[n]);
    }
  }

  lemma LabelledLabels(s: SettingsFragment, source: string)
    ensures LabelsWhatItSets(Labelled(s, source))
  {
    FragmentsLabel(s, AllFrom(source, source));
  }

  /** A fragment has none of the unexplained fields, and all others have a label. */
  lemma FragmentsLabel(s: SettingsFragment, labels: SourceLabels)
    ensures forall f :: f in LabelsSet(s, labels) <==> f in FragmentSettings(s)
    ensures forall f | f in UNEXPLAINED :: f !in FragmentSettings(s)
  {
    LabelledFields(labels);
    NoneUnexplained(s);
    hide FragmentAt, LabelAt;
  }

  lemma NoneUnexplained(s: SettingsFragment)
    ensures forall f | f in UNEXPLAINED :: FragmentAt(s, f).None?
  {
  }

  lemma CliLabelsMatch(cli: Cli)
    ensures LabelsWhatItSets(CliLayer(cli))
  {
    FragmentsLabel(CliOptions(cli), CliLabels(cli));
    OnlyExtras(cli);
    hide CliOptions, CliLabels, FragmentSettings, LabelsSet, CliExtras;
  }

  lemma OnlyExtras(cli: Cli)
    ensures forall f :: f in CliExtras(cli) ==> f in UNEXPLAINED
  {
  }

  lemma LayersLabelWhatTheySet(i: Inputs)
    ensures var layers := AllLayers(i); forall k :: 1 <= k < |layers| ==> LabelsWhatItSets(layers[k])
  {
    hide BuiltinProfile, LookupProfile, WithPath, CliLayer, Labelled, LabelsWhatItSets, DefaultLayer, FragmentSettings, LabelsSet;
    forall s, source ensures LabelsWhatItSets(Labelled(s, source)) {
      LabelledLabels(s, source);
    }
    CliLabelsMatch(i.cli);
  }

  lemma DefaultLabels(i: Inputs, f: Field)
    requires f !in UNEXPLAINED
    ensures f in DefaultLayer(i).labels && DefaultLayer(i).labels[f] == if f == Task then i.taskSource else "default"
  {
  }

  /** Of every explained field the value and the label come from the same layer, the highest that sets
      it; a field that no layer sets is labelled as a default. */
  lemma ValueAndLabelAgree(i: Inputs, f: Field)
    requires f !in UNEXPLAINED
    ensures var layers := AllLayers(i);
            var top := Highest(layers, f);
            && (f in Stacked(layers) <==> top.Some?)
            && f in StackedLabels(layers)
            && (match top
                case Some(k) =>
                  f in layers[k].labels && Stacked(layers)[f] == layers[k].settings[f] && StackedLabels(layers)[f] == layers[k].labels[f]
                case None => StackedLabels(layers)[f] == if f == Task then i.taskSource else "default")
  {
    var layers := AllLayers(i);
    LayersLabelWhatTheySet(i);
    StackedIsHighest(layers, f);
    DefaultLabels(i, f);
    assert layers[0] == DefaultLayer(i);
    hide DefaultLayer, AllLayers;
    LabelOfHighest(layers, f);
    hide Stacked, StackedLabels;
    if Highest(layers, f).Some? && Highest(layers, f).value > 0 {
      assert LabelsWhatItSets(layers[Highest(layers, f).value]);
    }
  }

  // ---- the view ----

  /** `RuntimeConfigView` */
  datatype RuntimeConfigView = RuntimeConfigView(
    task: string, mode: string, live: bool, liveFallbackPolicy: LiveFallbackPolicy, model: string, tokenizer: Option<string>,
    maxSteps: nat, maxNewTokens: nat, temperature: Float, format: OutputFormat, automationAdapter: Option<AutomationAdapter>,
    exitPolicy: ExitPolicy, exitThreshold: Option<ExitSeverityThreshold>, outputFile: Option<string>, caseId: Option<string>,
    evidenceBundleDir: Option<string>, evidenceBundleArchive: Option<string>, baselineBundle: Option<string>,
    logMode: LogMode, vitisConfig: Option<string>, vitisCacheDir: Option<string>, vitisCacheKey: Option<string>,
    backend: Option<string>)

  function FromRuntime(v: ConfigValues): RuntimeConfigView {
    RuntimeConfigView(
      v.task, if v.live then "live" else "dry-run", v.live, v.liveFallbackPolicy, v.model, v.tokenizer, v.maxSteps,
      v.maxNewTokens, v.temperature, v.format, v.automationAdapter, v.exitPolicy, v.exitThreshold, v.outputFile, v.caseId,
      v.evidenceBundleDir, v.evidenceBundleArchive, v.baselineBundle, v.logMode, v.vitisConfig, v.vitisCacheDir,
      v.vitisCacheKey, v.backend)
  }

  const UNSEEN := {Mode, Capability, ToolsDir, AllowedPlugins}

  /** The view tells configurations apart exactly by the fields it shows. */
  lemma ViewShowsExactly(v: ConfigValues, w: ConfigValues)
    ensures FromRuntime(v) == FromRuntime(w) <==> forall f | f !in UNSEEN :: ConfigAt(v, f) == ConfigAt(w, f)
  {
    if forall f | f !in UNSEEN :: ConfigAt(v, f) == ConfigAt(w, f) {
      SameShown(v, w);
    }
  }

  lemma SameModelFields(v: ConfigValues, w: ConfigValues)
    requires forall f | f in {Task, Model, Tokenizer, MaxSteps, MaxNewTokens, Temperature} :: ConfigAt(v, f) == ConfigAt(w, f)
    ensures v.task == w.task && v.model == w.model && v.tokenizer == w.tokenizer
    ensures v.maxSteps == w.maxSteps && v.maxNewTokens == w.maxNewTokens && v.temperature == w.temperature
  {
    assert ConfigAt(v, Task) == ConfigAt(w, Task);
    assert ConfigAt(v, Model) == ConfigAt(w, Model);
    assert ConfigAt(v, Tokenizer) == ConfigAt(w, Tokenizer);
    assert ConfigAt(v, MaxSteps) == ConfigAt(w, MaxSteps);
    assert ConfigAt(v, MaxNewTokens) == ConfigAt(w, MaxNewTokens);
    assert ConfigAt(v, Temperature) == ConfigAt(w, Temperature);
  }

  lemma SameRunFields(v: ConfigValues, w: ConfigValues)
    requires forall f | f in {Live, Fallback, Format, Adapter, Exit, Threshold} :: ConfigAt(v, f) == ConfigAt(w, f)
    ensures v.live == w.live && v.liveFallbackPolicy == w.liveFallbackPolicy && v.format == w.format
    ensures v.automationAdapter == w.automationAdapter && v.exitPolicy == w.exitPolicy && v.exitThreshold == w.exitThreshold
  {
    assert ConfigAt(v, Live) == ConfigAt(w, Live);
    assert ConfigAt(v, Fallback) == ConfigAt(w, Fallback);
    assert ConfigAt(v, Format) == ConfigAt(w, Format);
    assert ConfigAt(v, Adapter) == ConfigAt(w, Adapter);
    assert ConfigAt(v, Exit) == ConfigAt(w, Exit);
    assert ConfigAt(v, Threshold) == ConfigAt(w, Threshold);
  }

  lemma SameOutputFields(v: ConfigValues, w: ConfigValues)
    requires forall f | f in {OutputFile, CaseId, BundleDir, BundleArchive, Baseline} :: ConfigAt(v, f) == ConfigAt(w, f)
    ensures v.outputFile == w.outputFile && v.caseId == w.caseId && v.evidenceBundleDir == w.evidenceBundleDir
    ensures v.evidenceBundleArchive == w.evidenceBundleArchive && v.baselineBundle == w.baselineBundle
  {
    assert ConfigAt(v, OutputFile) == ConfigAt(w, OutputFile);
    assert ConfigAt(v, CaseId) == ConfigAt(w, CaseId);
    assert ConfigAt(v, BundleDir) == ConfigAt(w, BundleDir);
    assert ConfigAt(v, BundleArchive) == ConfigAt(w, BundleArchive);
    assert ConfigAt(v, Baseline) == ConfigAt(w, Baseline);
  }

  lemma SameBackendFields(v: ConfigValues, w: ConfigValues)
    requires forall f | f in {Log, VitisConfig, VitisCacheDir, VitisCacheKey, Backend} :: ConfigAt(v, f) == ConfigAt(w, f)
    ensures v.logMode == w.logMode && v.vitisConfig == w.vitisConfig && v.vitisCacheDir == w.vitisCacheDir
    ensures v.vitisCacheKey == w.vitisCacheKey && v.backend == w.backend
  {
    assert ConfigAt(v, Log) == ConfigAt(w, Log);
    assert ConfigAt(v, VitisConfig) == ConfigAt(w, VitisConfig);
    assert ConfigAt(v, VitisCacheDir) == ConfigAt(w, VitisCacheDir);
    assert ConfigAt(v, VitisCacheKey) == ConfigAt(w, VitisCacheKey);
    assert ConfigAt(v, Backend) == ConfigAt(w, Backend);
  }

  lemma SameShown(v: ConfigValues, w: ConfigValues)
    requires forall f | f !in UNSEEN :: ConfigAt(v, f) == ConfigAt(w, f)
    ensures FromRuntime(v) == FromRuntime(w)
  {
    hide ConfigAt;
    SameModelFields(v, w);
    SameRunFields(v, w);
    SameOutputFields(v, w);
    SameBackendFields(v, w);
  }

  /** The settings say everything about a configuration. */
  lemma SettingsDetermine(v: ConfigValues, w: ConfigValues)
    requires SettingsOf(v) == SettingsOf(w)
    ensures v == w
  {
    forall f ensures ConfigAt(v, f) == ConfigAt(w, f) {
      SettingsAt(v, f);
      SettingsAt(w, f);
    }
    assert ConfigAt(v, Mode) == ConfigAt(w, Mode) && ConfigAt(v, Capability) == ConfigAt(w, Capability);
    assert ConfigAt(v, ToolsDir) == ConfigAt(w, ToolsDir) && ConfigAt(v, AllowedPlugins) == ConfigAt(w, AllowedPlugins);
    assert v.outputMode == w.outputMode && v.capabilityOverride == w.capabilityOverride;
    assert v.toolsDir == w.toolsDir && v.allowedPlugins == w.allowedPlugins;
    hide ConfigAt, SettingsOf;
    SameShown(v, w);
  }

  /** Validation reads only what the view shows. */
  lemma ValidationReadsView(v: ConfigValues, w: ConfigValues, kindOf: string -> PathKind)
    requires FromRuntime(v) == FromRuntime(w)
    ensures Validation(v, kindOf) == Validation(w, kindOf)
  {
    hide CaseIdError, BundleError;
  }

  function Shown(s: Settings): Settings {
    s - UNSEEN
  }

  lemma SettingsAt(v: ConfigValues, f: Field)
    ensures ConfigAt(v, f) == if f in SettingsOf(v) then Some(SettingsOf(v)[f]) else None
  {
    hide ConfigAt;
  }

  lemma SameShownSettings(v: ConfigValues, w: ConfigValues)
    requires Shown(SettingsOf(v)) == Shown(SettingsOf(w))
    ensures FromRuntime(v) == FromRuntime(w)
  {
    hide ConfigAt, SettingsOf, FromRuntime;
    forall f | f !in UNSEEN ensures ConfigAt(v, f) == ConfigAt(w, f) {
      SettingsAt(v, f);
      SettingsAt(w, f);
      assert f in SettingsOf(v) <==> f in Shown(SettingsOf(v));
      assert f in SettingsOf(w) <==> f in Shown(SettingsOf(w));
    }
    ViewShowsExactly(v, w);
  }

  // ---- the two mergers agree ----

  lemma ExplainedSettings(i: Inputs)
    ensures Stacked(AllLayers(i)) == SettingsOf(New(i.task)) + Stacked(FragmentLayers(i)) + ExplainedCliSettings(i.cli)
  {
    hide SettingsOf, FragmentLayers, New, LabelsOf, ExplainedCliSettings, LabelsSet;
    StackedOne(DefaultLayer(i));
    StackedConcat([DefaultLayer(i)], FragmentLayers(i));
    StackedSnoc([DefaultLayer(i)] + FragmentLayers(i), CliLayer(i.cli));
  }

  lemma ShownMerge(a: Settings, b: Settings)
    ensures Shown(a + b) == Shown(a) + Shown(b)
  {
  }

  lemma ShownIgnores(s: Settings)
    ensures Shown(s - {Mode}) == Shown(s) && Shown(s - {ToolsDir, AllowedPlugins}) == Shown(s)
  {
  }

  lemma ShownMergeOfThree(a: Settings, b: Settings, c: Settings)
    ensures Shown(a + b + c) == Shown(a) + Shown(b) + Shown(c)
  {
    hide Shown;
    ShownMerge(a, b);
    ShownMerge(a + b, c);
  }

  lemma SameCliShown(cli: Cli)
    ensures Shown(CliSettings(cli)) == Shown(ExplainedCliSettings(cli))
  {
    ShownIgnores(CliExtras(cli));
    hide Shown, FragmentSettings, CliExtras;
    ShownMerge(FragmentSettings(CliOptions(cli)), CliExtras(cli));
    ShownMerge(FragmentSettings(CliOptions(cli)), CliExtras(cli) - {ToolsDir, AllowedPlugins});
  }

  lemma SameShownMerged(i: Inputs)
    ensures Shown(PlainSettings(i)) == Shown(Stacked(AllLayers(i)))
  {
    var base, fragments := SettingsOf(New(i.task)), Stacked(FragmentLayers(i));
    hide Shown, FragmentLayers, CliSettings, ExplainedCliSettings, SettingsOf, New, Stacked, AllLayers;
    ExplainedSettings(i);
    SameCliShown(i.cli);
    ShownIgnores(fragments);
    ShownMergeOfThree(base, fragments - {Mode}, CliSettings(i.cli));
    ShownMergeOfThree(base, fragments, ExplainedCliSettings(i.cli));
  }

  /** Two configurations that the mergers may arrive at from the same inputs show the same view and are
      refused for the same reason, if at all. */
  lemma MergersAgree(i: Inputs, plain: ConfigValues, explained: ConfigValues, kindOf: string -> PathKind)
    requires SettingsOf(plain) == PlainSettings(i) && SettingsOf(explained) == Stacked(AllLayers(i))
    ensures FromRuntime(plain) == FromRuntime(explained)
    ensures Validation(plain, kindOf) == Validation(explained, kindOf)
  {
    hide SettingsOf, PlainSettings, Stacked, AllLayers, Validation, FromRuntime, Shown;
    SameShownMerged(i);
    SameShownSettings(plain, explained);
    ValidationReadsView(plain, explained, kindOf);
  }

  /** Both mergers on the same inputs: they succeed together, or fail with the same error. */
  method MergeTwice(i: Inputs, kindOf: string -> PathKind)
    returns (plain: Result<RuntimeConfig, ConfigError>, explained: Result<(RuntimeConfig, ConfigSources), ConfigError>)
    ensures plain.Success? <==> explained.Success?
    ensures plain.Success? ==> FromRuntime(plain.value.values) == FromRuntime(explained.value.0.values)
    ensures plain.Failure? ==> plain.error == explained.error
  {
    hide SettingsOf, PlainSettings, Stacked, AllLayers, Validation, FromRuntime, StackedLabels, LabelsOf, FileProfile, BuiltinProfile;
    plain := MergeSources(i, kindOf);
    explained := MergeSourcesWithExplanation(i, kindOf);
    if !ProfileIsUnknown(i) {
      var v :| SettingsOf(v) == PlainSettings(i)
        && Validation(v, kindOf) == if plain.Success? then None else Some(plain.error);
      var w :| SettingsOf(w) == Stacked(AllLayers(i))
        && Validation(w, kindOf) == if explained.Success? then None else Some(explained.error);
      MergersAgree(i, v, w, kindOf);
      if plain.Success? {
        MergersAgree(i, plain.value.values, explained.value.0.values, kindOf);
      }
    }
  }

  /** The whole configurations are equal just if the command line names no tools directory and no
      plugins, and it sets the output mode or nothing else changes that. */
  lemma MergersAgreeWhollyIff(i: Inputs)
    ensures PlainSettings(i) == Stacked(AllLayers(i)) <==>
      && i.cli.toolsDir.None? && i.cli.allowedPlugins == []
      && (i.cli.outputMode.Some?
          || match Highest(FragmentLayers(i), Mode)
             case None => true
             case Some(k) => FragmentLayers(i)[k].settings[Mode] == ModeIs(Compact))
  {
    hide FragmentLayers, AllLayers, Stacked, Highest, Shown, SettingsOf, New, CliSettings, ExplainedCliSettings;
    ExplainedSettings(i);
    StackedIsHighest(FragmentLayers(i), Mode);
    FragmentsAreExplained(i);
    SameShownMerged(i);
    WhollyIff(i.task, Stacked(FragmentLayers(i)), i.cli);
  }

  predicate HasOnlyExplained(s: Settings) {
    Capability !in s && ToolsDir !in s && AllowedPlugins !in s
  }

  lemma FragmentsAreExplained(i: Inputs)
    ensures HasOnlyExplained(Stacked(FragmentLayers(i)))
  {
    hide BuiltinProfile, WithPath, LookupProfile, HasOnlyExplained, BackendFragment, FragmentSettings, LabelsSet, AllFrom;
    var layers := FragmentLayers(i);
    forall s ensures HasOnlyExplained(FragmentSettings(s)) {
      FragmentIsExplained(s);
    }
    hide Labelled;
    assert forall k :: 0 <= k < |layers| ==> HasOnlyExplained(layers[k].settings);
    StackedExplained(layers);
  }

  lemma FragmentIsExplained(s: SettingsFragment)
    ensures HasOnlyExplained(FragmentSettings(s))
  {
    NoneUnexplained(s);
    hide FragmentAt;
  }

  lemma {:induction false} StackedExplained(layers: seq<Layer>)
    requires forall k :: 0 <= k < |layers| ==> HasOnlyExplained(layers[k].settings)
    ensures HasOnlyExplained(Stacked(layers))
  {
    if layers != [] {
      StackedExplained(layers[..|layers| - 1]);
    }
  }

  predicate SameAt(a: Settings, b: Settings, f: Field) {
    (f in a <==> f in b) && (f in a ==> a[f] == b[f])
  }

  lemma SameEverywhere(a: Settings, b: Settings)
    requires forall f :: SameAt(a, b, f)
    ensures a == b
  {
    forall f ensures (f in a <==> f in b) && (f in a ==> a[f] == b[f]) {
      assert SameAt(a, b, f);
    }
    assert a.Keys == b.Keys;
  }

  lemma EqualBeyondView(a: Settings, b: Settings)
    requires Shown(a) == Shown(b)
    ensures a == b <==> SameAt(a, b, Mode) && SameAt(a, b, Capability) && SameAt(a, b, ToolsDir) && SameAt(a, b, AllowedPlugins)
  {
    forall f | f !in UNSEEN ensures SameAt(a, b, f) {
      assert f in a <==> f in Shown(a);
      assert f in b <==> f in Shown(b);
    }
    if SameAt(a, b, Mode) && SameAt(a, b, Capability) && SameAt(a, b, ToolsDir) && SameAt(a, b, AllowedPlugins) {
      forall f ensures SameAt(a, b, f) {
      }
      hide SameAt, Shown;
      SameEverywhere(a, b);
    }
  }

  lemma OptionsBeyondView(s: SettingsFragment)
    ensures (Mode in FragmentSettings(s) <==> s.outputMode.Some?) && HasOnlyExplained(FragmentSettings(s))
  {
    FragmentIsExplained(s);
    assert FragmentAt(s, Mode).Some? <==> s.outputMode.Some?;
    hide FragmentAt, HasOnlyExplained;
  }

  lemma ExtrasBeyondView(cli: Cli)
    ensures (ToolsDir in CliExtras(cli) <==> cli.toolsDir.Some?) && (AllowedPlugins in CliExtras(cli) <==> cli.allowedPlugins != [])
    ensures Mode !in CliExtras(cli)
  {
  }

  /** What the two command lines do to the fields the view leaves out. */
  lemma CliBeyondView(cli: Cli)
    ensures var plain, explained := CliSettings(cli), ExplainedCliSettings(cli);
      && (Mode in plain <==> cli.outputMode.Some?) && SameAt(plain, explained, Mode) && SameAt(plain, explained, Capability)
      && (ToolsDir in plain <==> cli.toolsDir.Some?) && (AllowedPlugins in plain <==> cli.allowedPlugins != [])
      && ToolsDir !in explained && AllowedPlugins !in explained
  {
    OptionsBeyondView(CliOptions(cli));
    ExtrasBeyondView(cli);
    assert CliOptions(cli).outputMode == cli.outputMode;
    hide CliOptions, CliExtras, FragmentSettings;
  }

  lemma DefaultsBeyondView(task: string)
    ensures var s := SettingsOf(New(task));
      Mode in s && s[Mode] == ModeIs(Compact) && Capability !in s && ToolsDir !in s && AllowedPlugins !in s
  {
  }

  lemma WhollyIff(task: string, fragments: Settings, cli: Cli)
    requires HasOnlyExplained(fragments)
    requires Shown(SettingsOf(New(task)) + (fragments - {Mode}) + CliSettings(cli))
          == Shown(SettingsOf(New(task)) + fragments + ExplainedCliSettings(cli))
    ensures var plain := SettingsOf(New(task)) + (fragments - {Mode}) + CliSettings(cli);
            var explained := SettingsOf(New(task)) + fragments + ExplainedCliSettings(cli);
            plain == explained <==>
              && cli.toolsDir.None? && cli.allowedPlugins == []
              && (cli.outputMode.Some? || Mode !in fragments || fragments[Mode] == ModeIs(Compact))
  {
    hide Shown, SettingsOf, New, CliSettings, ExplainedCliSettings;
    var base := SettingsOf(New(task));
    var a, b := base + (fragments - {Mode}) + CliSettings(cli), base + fragments + ExplainedCliSettings(cli);
    EqualBeyondView(a, b);
    CliBeyondView(cli);
    DefaultsBeyondView(task);
    assert SameAt(a, b, Capability);
    assert SameAt(a, b, ToolsDir) <==> cli.toolsDir.None?;
    assert SameAt(a, b, AllowedPlugins) <==> cli.allowedPlugins == [];
    assert SameAt(a, b, Mode) <==> cli.outputMode.Some? || Mode !in fragments || fragments[Mode] == ModeIs(Compact);
  }

  // ---- an output mode that is explained and not used ----

  const NO_OPTIONS := Cli(
    None, None, None, None, None, None, None, None, None, None, None, None, None, None, None, None, None, None, None, None,
    false, false, false, false, None, None, [])

  /** The environment sets the full output mode, and nothing else is set. */
  function FullMode(task: string): Inputs {
    Inputs(task, "cli --task", None, None, None, EMPTY.(outputMode := Some(Full)), NO_OPTIONS, name => name)
  }

  lemma NothingFromCli()
    ensures CliSettings(NO_OPTIONS) == map[] && ExplainedCliSettings(NO_OPTIONS) == map[]
    ensures LabelsSet(CliOptions(NO_OPTIONS), CliLabels(NO_OPTIONS)) == map[]
  {
    assert forall f :: FragmentAt(CliOptions(NO_OPTIONS), f).None? && ExtraAt(NO_OPTIONS, f).None?;
    hide FragmentAt, ExtraAt, CliOptions;
  }

  lemma FullModeFragment(source: string)
    ensures FragmentSettings(EMPTY.(outputMode := Some(Full))) == map[Mode := ModeIs(Full)]
    ensures LabelsSet(EMPTY.(outputMode := Some(Full)), AllFrom(source, source)) == map[Mode := source]
  {
    assert forall f :: FragmentAt(EMPTY.(outputMode := Some(Full)), f) == if f == Mode then Some(ModeIs(Full)) else None;
    assert LabelAt(AllFrom(source, source), Mode) == Some(source);
    hide FragmentAt, LabelAt, AllFrom;
  }

  /** The run uses the compact mode, and the explanation says full, from the environment. */
  lemma OutputModeIsExplainedAndNotUsed(task: string)
    ensures var plain, explained, labels := PlainSettings(FullMode(task)), Stacked(AllLayers(FullMode(task))),
                                            StackedLabels(AllLayers(FullMode(task)));
      && Mode in plain && plain[Mode] == ModeIs(Compact)
      && Mode in explained && explained[Mode] == ModeIs(Full)
      && Mode in labels && labels[Mode] == "environment variables"
  {
    var i := FullMode(task);
    var env := Labelled(i.env, "environment variables");
    NothingFromCli();
    FullModeFragment("environment variables");
    DefaultsBeyondView(task);
    assert FragmentLayers(i) == [env];
    assert AllLayers(i) == [DefaultLayer(i), env, CliLayer(i.cli)] == [DefaultLayer(i)] + [env] + [CliLayer(i.cli)];
    hide SettingsOf, New, FragmentSettings, LabelsSet, LabelsOf, AllFrom, CliSettings, ExplainedCliSettings, Stacked, StackedLabels,
         CliOptions, CliLabels;
    StackedOne(env);
    StackedOne(DefaultLayer(i));
    StackedSnoc([DefaultLayer(i)], env);
    StackedSnoc([DefaultLayer(i)] + [env], CliLayer(i.cli));
  }
}
