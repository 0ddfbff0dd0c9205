/** The configuration manager: built-in defaults, the precedence between the user's file, the
    shipped default file and the built-in values, and the override of the global configuration
    by a workflow's own. File existence and file contents are inputs (`ConfigFile`); reading and
    `JSON.parse` failures arrive as an `Unreadable` file carrying the error's text. */
module ConfigManager {
  import opened Wrappers
  import opened Text
  import opened JsonValues
  import opened ConfigTypes
  import opened Errors
  import opened Validation
  import Paths

  /** The built-in configuration, used when no configuration file exists. */
  const DefaultConfig: GlobalConfig :=
    GlobalConfig(
      BrowserConfig(false, 0, Size(1920, 1080), None, Some(30000), Some(30000)),
      VideoConfig(Size(1920, 1080), 30, None, None))

  /** `getDefaultConfig`: the built-in values, which themselves pass the global schema's bounds. */
  function GetDefaultConfig(): (g: GlobalConfig)
    ensures ValidGlobalConfig(g)
    ensures !g.browser.headless && g.browser.slowMo == 0 && g.browser.viewport == Size(1920, 1080)
    ensures g.browser.defaultTimeout == Some(30000) && g.browser.navigationTimeout == Some(30000)
    ensures g.video.size == Size(1920, 1080) && g.video.fps == 30
    ensures g.browser.showBrowserUI.None? && g.video.skipAllVtt.None? && g.video.skipAllChapters.None?
  {
    DefaultConfig
  }

  // Merging

  /** A spread of one field: the override's value when it has one, else the inherited value. */
  function Pick<T>(o: Option<T>, inherited: T): T
  {
    if o.Some? then o.value else inherited
  }

  /** The same for a field that is optional in the global configuration too. */
  function PickOpt<T>(o: Option<T>, inherited: Option<T>): Option<T>
  {
    if o.Some? then o else inherited
  }

  /** `{...global, ...(override || {})}` for a width/height record. */
  function MergeSize(s: Size, o: Option<SizeOverride>): Size
  {
    match o
    case None => s
    case Some(w) => Size(Pick(w.width, s.width), Pick(w.height, s.height))
  }

  function MergeBrowser(b: BrowserConfig, o: Option<BrowserOverride>): BrowserConfig
  {
    match o
    case None => b
    case Some(w) =>
      BrowserConfig(Pick(w.headless, b.headless), Pick(w.slowMo, b.slowMo), MergeSize(b.viewport, w.viewport),
        PickOpt(w.showBrowserUI, b.showBrowserUI), PickOpt(w.defaultTimeout, b.defaultTimeout),
        PickOpt(w.navigationTimeout, b.navigationTimeout))
  }

  function MergeVideo(v: VideoConfig, o: Option<VideoOverride>): VideoConfig
  {
    match o
    case None => v
    case Some(w) =>
      VideoConfig(MergeSize(v.size, w.size), Pick(w.fps, v.fps),
        PickOpt(w.skipAllVtt, v.skipAllVtt), PickOpt(w.skipAllChapters, v.skipAllChapters))
  }

  /** `mergeConfigs(global, workflow)`: no workflow configuration (`null`/`undefined`) leaves
      the global one as it is; otherwise each section is spread over the global section, and
      `viewport` and `size` are spread one level deeper. */
  function MergeConfigs(g: GlobalConfig, w: Option<WorkflowConfig>): GlobalConfig
  {
    match w
    case None => g
    case Some(c) => GlobalConfig(MergeBrowser(g.browser, c.browser), MergeVideo(g.video, c.video))
  }

  /** The leaf settings of a configuration, named by their paths. */
  datatype Setting =
    | Headless | SlowMo | ViewportWidth | ViewportHeight | ShowBrowserUI | DefaultTimeout
    | NavigationTimeout | SizeWidth | SizeHeight | Fps | SkipAllVtt | SkipAllChapters

  datatype Value = Flag(b: bool) | Number(n: int)

  function FlagOf(o: Option<bool>): Option<Value>
  {
    match o
    case Some(b) => Some(Flag(b))
    case None => None
  }

  function NumberOf(o: Option<int>): Option<Value>
  {
    match o
    case Some(n) => Some(Number(n))
    case None => None
  }

  /** The settings under `browser`; the others are under `video`. */
  const BrowserSettings: set<Setting> :=
    {Headless, SlowMo, ViewportWidth, ViewportHeight, ShowBrowserUI, DefaultTimeout, NavigationTimeout}

  /** The value at a setting's path in a full configuration; an optional setting may be absent. */
  function Get(g: GlobalConfig, k: Setting): Option<Value>
  {
    if k in BrowserSettings then BrowserGet(g.browser, k) else VideoGet(g.video, k)
  }

  function BrowserGet(b: BrowserConfig, k: Setting): Option<Value>
  {
    match k
    case Headless => Some(Flag(b.headless))
    case SlowMo => Some(Number(b.slowMo))
    case ViewportWidth => Some(Number(b.viewport.width))
    case ViewportHeight => Some(Number(b.viewport.height))
    case ShowBrowserUI => FlagOf(b.showBrowserUI)
    case DefaultTimeout => NumberOf(b.defaultTimeout)
    case NavigationTimeout => NumberOf(b.navigationTimeout)
    case _ => None
  }

  function VideoGet(v: VideoConfig, k: Setting): Option<Value>
  {
    match k
    case SizeWidth => Some(Number(v.size.width))
    case SizeHeight => Some(Number(v.size.height))
    case Fps => Some(Number(v.fps))
    case SkipAllVtt => FlagOf(v.skipAllVtt)
    case SkipAllChapters => FlagOf(v.skipAllChapters)
    case _ => None
  }

  function SizeWidthOf(o: Option<SizeOverride>): Option<Value>
  {
    if o.Some? then NumberOf(o.value.width) else None
  }

  function SizeHeightOf(o: Option<SizeOverride>): Option<Value>
  {
    if o.Some? then NumberOf(o.value.height) else None
  }

  /** The value a workflow configuration sets at a setting's path, if it sets one. */
  function OverrideAt(w: Option<WorkflowConfig>, k: Setting): Option<Value>
  {
    if w.None? then None
    else if k in BrowserSettings then BrowserOverrideAt(w.value.browser, k)
    else
      VideoOverrideAt(w.value.video, k)
  }

  function BrowserOverrideAt(o: Option<BrowserOverride>, k: Setting): Option<Value>
  {
    match o
    case None => None
    case Some(b) =>
      match k
      case Headless => FlagOf(b.headless)
      case SlowMo => NumberOf(b.slowMo)
      case ViewportWidth => SizeWidthOf(b.viewport)
      case ViewportHeight => SizeHeightOf(b.viewport)
      case ShowBrowserUI => FlagOf(b.showBrowserUI)
      case DefaultTimeout => NumberOf(b.defaultTimeout)
      case NavigationTimeout => NumberOf(b.navigationTimeout)
      case _ => None
  }

  function VideoOverrideAt(o: Option<VideoOverride>, k: Setting): Option<Value>
  {
    match o
    case None => None
    case Some(v) =>
      match k
      case SizeWidth => SizeWidthOf(v.size)
      case SizeHeight => SizeHeightOf(v.size)
      case Fps => NumberOf(v.fps)
      case SkipAllVtt => FlagOf(v.skipAllVtt)
      case SkipAllChapters => FlagOf(v.skipAllChapters)
      case _ => None
  }

  /** The merge, setting by setting: every path reads the workflow's value when the workflow
      sets one, and the global value otherwise. */
  lemma MergeReadsOverrideFirst(g: GlobalConfig, w: Option<WorkflowConfig>, k: Setting)
    ensures Get(MergeConfigs(g, w), k) == if OverrideAt(w, k).Some? then OverrideAt(w, k) else Get(g, k)
  {
    if w.Some? {
      if k in BrowserSettings {
        BrowserSettingMerged(g.browser, w.value.browser, k);
      } else {
        VideoSettingMerged(g.video, w.value.video, k);
      }
    }
  }

  lemma BrowserSettingMerged(b: BrowserConfig, o: Option<BrowserOverride>, k: Setting)
    ensures BrowserGet(MergeBrowser(b, o), k) == if BrowserOverrideAt(o, k).Some? then BrowserOverrideAt(o, k) else BrowserGet(b, k)
  {
  }

  lemma VideoSettingMerged(v: VideoConfig, o: Option<VideoOverride>, k: Setting)
    ensures VideoGet(MergeVideo(v, o), k) == if VideoOverrideAt(o, k).Some? then VideoOverrideAt(o, k) else VideoGet(v, k)
  {
  }

  /** Two configurations that agree on every setting are the same configuration. */
  lemma SettingsDetermine(g1: GlobalConfig, g2: GlobalConfig)
    requires forall k :: Get(g1, k) == Get(g2, k)
    ensures g1 == g2
  {
    forall k
      ensures BrowserGet(g1.browser, k) == BrowserGet(g2.browser, k) && VideoGet(g1.video, k) == VideoGet(g2.video, k)
    {
      assert Get(g1, k) == Get(g2, k);
    }
    BrowserSettingsDetermine(g1.browser, g2.browser);
    VideoSettingsDetermine(g1.video, g2.video);
  }

  lemma BrowserSettingsDetermine(b1: BrowserConfig, b2: BrowserConfig)
    requires forall k :: BrowserGet(b1, k) == BrowserGet(b2, k)
    ensures b1 == b2
  {
    assert BrowserGet(b1, Headless) == BrowserGet(b2, Headless) && BrowserGet(b1, SlowMo) == BrowserGet(b2, SlowMo);
    assert BrowserGet(b1, ViewportWidth) == BrowserGet(b2, ViewportWidth);
    assert BrowserGet(b1, ViewportHeight) == BrowserGet(b2, ViewportHeight);
    assert BrowserGet(b1, ShowBrowserUI) == BrowserGet(b2, ShowBrowserUI);
    assert BrowserGet(b1, DefaultTimeout) == BrowserGet(b2, DefaultTimeout);
    assert BrowserGet(b1, NavigationTimeout) == BrowserGet(b2, NavigationTimeout);
  }

  lemma VideoSettingsDetermine(v1: VideoConfig, v2: VideoConfig)
    requires forall k :: VideoGet(v1, k) == VideoGet(v2, k)
    ensures v1 == v2
  {
    assert VideoGet(v1, SizeWidth) == VideoGet(v2, SizeWidth) && VideoGet(v1, SizeHeight) == VideoGet(v2, SizeHeight);
    assert VideoGet(v1, Fps) == VideoGet(v2, Fps);
    assert VideoGet(v1, SkipAllVtt) == VideoGet(v2, SkipAllVtt);
    assert VideoGet(v1, SkipAllChapters) == VideoGet(v2, SkipAllChapters);
  }

  /** A workflow configuration that sets nothing, `null` or `{}` or sections without fields,
      leaves the global configuration as it is. */
  lemma EmptyOverrideKeepsGlobal(g: GlobalConfig, w: Option<WorkflowConfig>)
    requires forall k :: OverrideAt(w, k).None?
    ensures MergeConfigs(g, w) == g
  {
    forall k
      ensures Get(MergeConfigs(g, w), k) == Get(g, k)
    {
      MergeReadsOverrideFirst(g, w, k);
    }
    SettingsDetermine(MergeConfigs(g, w), g);
  }

  /** The merge never drops a setting the global configuration has. */
  lemma MergeKeepsSettings(g: GlobalConfig, w: Option<WorkflowConfig>, k: Setting)
    ensures Get(g, k).Some? ==> Get(MergeConfigs(g, w), k).Some?
    ensures OverrideAt(w, k).None? ==> Get(MergeConfigs(g, w), k) == Get(g, k)
  {
    MergeReadsOverrideFirst(g, w, k);
  }

  /** Applying the same workflow configuration twice changes nothing more. */
  lemma MergeIdempotent(g: GlobalConfig, w: Option<WorkflowConfig>)
    ensures MergeConfigs(MergeConfigs(g, w), w) == MergeConfigs(g, w)
  {
    var once := MergeConfigs(g, w);
    forall k
      ensures Get(MergeConfigs(once, w), k) == Get(once, k)
    {
      MergeReadsOverrideFirst(g, w, k);
      MergeReadsOverrideFirst(once, w, k);
    }
    SettingsDetermine(MergeConfigs(once, w), once);
  }

  /** Of two workflow configurations applied in turn, the later one wins where both set a
      setting, and each keeps what the other leaves unset. */
  lemma LaterOverrideWins(g: GlobalConfig, w1: Option<WorkflowConfig>, w2: Option<WorkflowConfig>, k: Setting)
    ensures Get(MergeConfigs(MergeConfigs(g, w1), w2), k) ==
      if OverrideAt(w2, k).Some? then OverrideAt(w2, k)
      else if OverrideAt(w1, k).Some? then OverrideAt(w1, k)
      else Get(g, k)
  {
    MergeReadsOverrideFirst(g, w1, k);
    MergeReadsOverrideFirst(MergeConfigs(g, w1), w2, k);
  }

  /** A configuration within the global schema's bounds, merged with a workflow configuration
      within the workflow schema's bounds, is still within the global bounds. */
  lemma MergeKeepsBounds(g: GlobalConfig, w: Option<WorkflowConfig>)
    requires ValidGlobalConfig(g)
    requires w.Some? ==> ValidWorkflowConfig(w.value)
    ensures ValidGlobalConfig(MergeConfigs(g, w))
  {
  }

  /** The cases of the merge tests: overriding headless, slowMo and fps keeps the rest, and a
      workflow viewport width alone keeps the global height. */
  lemma MergeExamples()
    ensures var g := GlobalConfig(BrowserConfig(false, 0, Size(1920, 1080), None, None, None),
                                  VideoConfig(Size(1920, 1080), 30, None, None));
            var w := WorkflowConfig(Some(BrowserOverride(Some(true), Some(50), None, None, None, None)),
                                    Some(VideoOverride(None, Some(60), None, None)));
            MergeConfigs(g, Some(w)) ==
              GlobalConfig(BrowserConfig(true, 50, Size(1920, 1080), None, None, None),
                           VideoConfig(Size(1920, 1080), 60, None, None))
    ensures var w := WorkflowConfig(Some(BrowserOverride(None, None, Some(SizeOverride(Some(1280), None)), None, None, None)), None);
            MergeConfigs(GetDefaultConfig(), Some(w)).browser.viewport == Size(1280, 1080)
  {
  }

  // Loading

  /** One configuration file as the loader finds it: absent, present but unreadable or not
      JSON (with the thrown error's text), or parsed. */
  datatype ConfigFile = Missing | Unreadable(reason: string) | Contents(json: Json)

  /** How the body of a `try` block ends when it throws: with a `ConfigError`, or with
      anything else. */
  datatype Thrown = ThrownConfig(error: ConfigError) | ThrownOther(reason: string)

  const DefaultUserConfigPath: string := "recording-config.json"
  const DefaultConfigFilePath: string := "recording-config.default.json"

  /** The messages of schema issues joined with ', '. The wording stands in for the schema
      library's messages. */
  function IssueSummary(issues: seq<Issue>): string
  {
    Join(seq(|issues|, i requires 0 <= i < |issues| => IssueText(issues[i].code)), ", ")
  }

  function IssueText(code: IssueCode): string
  {
    match code
    case Required => "Required"
    case InvalidUrl => "Invalid url"
    case InvalidType => "Invalid type"
    case InvalidLiteral => "Invalid literal value"
    case InvalidEnum => "Invalid enum value"
    case InvalidUnion => "Invalid input"
    case TooSmall => "Too small"
    case TooBig => "Too big"
    case InvalidDiscriminator => "Invalid discriminator value"
  }

  /** Reads an existing global configuration file: its JSON must pass the global schema, or a
      `ConfigError` with `heading` and the issues is thrown. */
  function ReadGlobalFile(file: ConfigFile, path: string, heading: string): Result<GlobalConfig, Thrown>
    requires !file.Missing?
  {
    match file
    case Unreadable(reason) => Err(ThrownOther(reason))
    case Contents(json) =>
      match ParseGlobalConfig(json)
      case Ok(g) => Ok(g)
      case Err(issues) => Err(ThrownConfig(ConfigError(heading + ": " + IssueSummary(issues), Some(path))))
  }

  /** The `try` block of `loadGlobalConfig`: the user's file when it exists, else the shipped
      default file when it exists, else the built-in values. */
  function LoadGlobalBody(configPath: string, user: ConfigFile, shipped: ConfigFile): Result<GlobalConfig, Thrown>
  {
    if !user.Missing? then ReadGlobalFile(user, configPath, "Invalid global config")
    else if !shipped.Missing? then ReadGlobalFile(shipped, DefaultConfigFilePath, "Invalid default config")
    else Ok(DefaultConfig)
  }

  /** The `catch` blocks of both loaders: a `ConfigError` is rethrown as it is, anything else is
      wrapped into one naming `what` and the configuration path. */
  function Catch<T>(r: Result<T, Thrown>, what: string, configPath: string): Result<T, ConfigError>
  {
    match r
    case Ok(x) => Ok(x)
    case Err(ThrownConfig(e)) => Err(e)
    case Err(ThrownOther(reason)) => Err(ConfigError("Failed to load " + what + ": " + reason, Some(configPath)))
  }

  /** `loadGlobalConfig(configPath)`, given what exists at `configPath` and at the shipped
      default file's path. */
  function LoadGlobalConfig(configPath: string, user: ConfigFile, shipped: ConfigFile): Result<GlobalConfig, ConfigError>
  {
    Catch(LoadGlobalBody(configPath, user, shipped), "global config", configPath)
  }

  /** The user's file, when it exists, decides the outcome: the shipped default file is not
      consulted; with neither file the built-in values are used. */
  lemma LoadGlobalPrecedence(configPath: string, user: ConfigFile, shipped: ConfigFile, other: ConfigFile)
    ensures !user.Missing? ==> LoadGlobalConfig(configPath, user, shipped) == LoadGlobalConfig(configPath, user, other)
    ensures user.Contents? ==>
      (LoadGlobalConfig(configPath, user, shipped).Ok? <==> ParseGlobalConfig(user.json).Ok?)
    ensures user.Missing? && shipped.Missing? ==> LoadGlobalConfig(configPath, user, shipped) == Ok(DefaultConfig)
  {
  }

  /** With no user file, the shipped file decides, whatever path the user's file was looked for at. */
  lemma ShippedFileSecond(configPath: string, otherPath: string, shipped: ConfigFile)
    ensures shipped.Contents? ==>
      (LoadGlobalConfig(configPath, Missing, shipped).Ok? <==> ParseGlobalConfig(shipped.json).Ok?)
    ensures shipped.Contents? ==>
      LoadGlobalConfig(configPath, Missing, shipped) == LoadGlobalConfig(otherPath, Missing, shipped)
  {
  }

  /** Whatever the loader returns passes the global schema's bounds. */
  lemma LoadedGlobalValid(configPath: string, user: ConfigFile, shipped: ConfigFile)
    ensures LoadGlobalConfig(configPath, user, shipped).Ok? ==> ValidGlobalConfig(LoadGlobalConfig(configPath, user, shipped).value)
  {
    var r := LoadGlobalConfig(configPath, user, shipped);
    if r.Ok? {
      if user.Contents? {
        GlobalConfigSound(user.json);
      } else if user.Missing? && shipped.Contents? {
        GlobalConfigSound(shipped.json);
      }
    }
  }

  lemma PrefixOf(a: string, b: string)
    ensures StartsWith(a + b, a)
  {
    assert (a + b)[..|a|] == a;
  }

  /** A file that fails the schema gives a `ConfigError` naming that file, which the `catch`
      rethrows unchanged rather than wrapping. */
  lemma SchemaFailureReported(configPath: string, user: ConfigFile, shipped: ConfigFile)
    ensures user.Contents? && ParseGlobalConfig(user.json).Err? ==>
      var r := LoadGlobalConfig(configPath, user, shipped);
      r.Err? && StartsWith(r.error.message, "Invalid global config: ") && r.error.configPath == Some(configPath)
    ensures user.Missing? && shipped.Contents? && ParseGlobalConfig(shipped.json).Err? ==>
      var r := LoadGlobalConfig(configPath, user, shipped);
      r.Err? && StartsWith(r.error.message, "Invalid default config: ") && r.error.configPath == Some(DefaultConfigFilePath)
  {
    if user.Contents? && ParseGlobalConfig(user.json).Err? {
      PrefixOf("Invalid global config: ", IssueSummary(ParseGlobalConfig(user.json).error));
    }
    if user.Missing? && shipped.Contents? && ParseGlobalConfig(shipped.json).Err? {
      PrefixOf("Invalid default config: ", IssueSummary(ParseGlobalConfig(shipped.json).error));
    }
  }

  /** Any other failure, in either file, is wrapped with the user's configuration path, even when
      it was the shipped default file that could not be read. */
  lemma ReadFailureWrapped(configPath: string, user: ConfigFile, shipped: ConfigFile)
    ensures user.Unreadable? ==>
      LoadGlobalConfig(configPath, user, shipped) == Err(ConfigError("Failed to load global config: " + user.reason, Some(configPath)))
    ensures user.Missing? && shipped.Unreadable? ==>
      LoadGlobalConfig(configPath, user, shipped) == Err(ConfigError("Failed to load global config: " + shipped.reason, Some(configPath)))
  {
    var reason := if user.Unreadable? then user.reason else if shipped.Unreadable? then shipped.reason else "";
    assert "Failed to load " + "global config" + ": " + reason == "Failed to load global config: " + reason;
  }

  /** `loadWorkflowConfig(name)`: `workflows/<name>/config.json` when it exists (`null` when it
      does not), checked against the workflow schema. */
  function WorkflowConfigPath(workflowName: string): string
  {
    Paths.Join(Paths.Join("workflows", workflowName), "config.json")
  }

  function LoadWorkflowBody(path: string, file: ConfigFile): Result<Option<WorkflowConfig>, Thrown>
  {
    match file
    case Missing => Ok(None)
    case Unreadable(reason) => Err(ThrownOther(reason))
    case Contents(json) =>
      match ParseWorkflowConfig(json)
      case Ok(w) => Ok(Some(w))
      case Err(issues) => Err(ThrownConfig(ConfigError("Invalid workflow config: " + IssueSummary(issues), Some(path))))
  }

  function LoadWorkflowConfig(workflowName: string, file: ConfigFile): Result<Option<WorkflowConfig>, ConfigError>
  {
    var path := WorkflowConfigPath(workflowName);
    Catch(LoadWorkflowBody(path, file), "workflow config", path)
  }

  /** No file means no workflow configuration; a loaded one passes the workflow schema's bounds;
      every failure names the workflow's configuration path. */
  lemma LoadWorkflowConfigOutcome(workflowName: string, file: ConfigFile)
    ensures file.Missing? <==> LoadWorkflowConfig(workflowName, file) == Ok(None)
    ensures LoadWorkflowConfig(workflowName, file).Ok? && LoadWorkflowConfig(workflowName, file).value.Some? ==>
      ValidWorkflowConfig(LoadWorkflowConfig(workflowName, file).value.value)
    ensures LoadWorkflowConfig(workflowName, file).Err? ==>
      LoadWorkflowConfig(workflowName, file).error.configPath == Some(WorkflowConfigPath(workflowName))
  {
    if file.Contents? && ParseWorkflowConfig(file.json).Ok? {
      WorkflowConfigSound(file.json, []);
    }
  }

  /** `loadAndMergeConfigs(name)`: the global configuration (from the default user path), then
      the workflow's, then the merge; the first failure is the result. */
  function LoadAndMergeConfigs(workflowName: string, user: ConfigFile, shipped: ConfigFile, workflowFile: ConfigFile)
    : Result<GlobalConfig, ConfigError>
  {
    match LoadGlobalConfig(DefaultUserConfigPath, user, shipped)
    case Err(e) => Err(e)
    case Ok(g) =>
      match LoadWorkflowConfig(workflowName, workflowFile)
      case Err(e) => Err(e)
      case Ok(w) => Ok(MergeConfigs(g, w))
  }

  /** The configuration a run uses passes the global schema's bounds, and without a workflow
      file it is the global configuration itself. */
  lemma LoadAndMergeValid(workflowName: string, user: ConfigFile, shipped: ConfigFile, workflowFile: ConfigFile)
    ensures LoadAndMergeConfigs(workflowName, user, shipped, workflowFile).Ok? ==>
      ValidGlobalConfig(LoadAndMergeConfigs(workflowName, user, shipped, workflowFile).value)
    ensures workflowFile.Missing? ==>
      LoadAndMergeConfigs(workflowName, user, shipped, workflowFile) == LoadGlobalConfig(DefaultUserConfigPath, user, shipped)
  {
    LoadedGlobalValid(DefaultUserConfigPath, user, shipped);
    LoadWorkflowConfigOutcome(workflowName, workflowFile);
    var g := LoadGlobalConfig(DefaultUserConfigPath, user, shipped);
    var w := LoadWorkflowConfig(workflowName, workflowFile);
    if g.Ok? && w.Ok? {
      MergeKeepsBounds(g.value, w.value);
    }
  }
}
