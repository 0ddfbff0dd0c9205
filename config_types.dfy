/** Browser and video settings: the full global configuration and the per-workflow override. */
module ConfigTypes {
  import opened Wrappers

  datatype Size = Size(width: int, height: int)

  datatype BrowserConfig = BrowserConfig(
    headless: bool,
    slowMo: int,
    viewport: Size,
    showBrowserUI: Option<bool>,
    defaultTimeout: Option<int>,
    navigationTimeout: Option<int>)

  datatype VideoConfig = VideoConfig(
    size: Size,
    fps: int,
    skipAllVtt: Option<bool>,
    skipAllChapters: Option<bool>)

  datatype GlobalConfig = GlobalConfig(browser: BrowserConfig, video: VideoConfig)

  /** A `{width?, height?}` record inside a workflow override. */
  datatype SizeOverride = SizeOverride(width: Option<int>, height: Option<int>)

  /** `Partial<BrowserConfig>`: every field may be absent. */
  datatype BrowserOverride = BrowserOverride(
    headless: Option<bool>,
    slowMo: Option<int>,
    viewport: Option<SizeOverride>,
    showBrowserUI: Option<bool>,
    defaultTimeout: Option<int>,
    navigationTimeout: Option<int>)

  /** `Partial<VideoConfig>`. */
  datatype VideoOverride = VideoOverride(
    size: Option<SizeOverride>,
    fps: Option<int>,
    skipAllVtt: Option<bool>,
    skipAllChapters: Option<bool>)

  datatype WorkflowConfig = WorkflowConfig(browser: Option<BrowserOverride>, video: Option<VideoOverride>)
}
