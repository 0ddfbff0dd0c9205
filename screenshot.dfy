/** The screenshot handler's choice of file: an explicit `path` first (absolute paths as they
    are, relative ones reduced to their last segment), then `filename`, then a name made from
    the clock. The clock arrives as `now` (milliseconds, for the generated name) and `stamp`, the text
    `generateTimestamp()` gives at that moment (for a fresh output directory). */
module ScreenshotHandler {
  import opened Wrappers
  import opened Text
  import opened Actions
  import opened Execution
  import Paths
  import FileSystem

  /** `p.startsWith('/')` or `p` matches `/^[A-Z]:\\/`: a root path or an upper-case drive. */
  predicate IsAbsolute(p: string)
  {
    StartsWith(p, "/") || (|p| >= 3 && 'A' <= p[0] <= 'Z' && p[1] == ':' && p[2] == '\\')
  }

  function LowerAscii(c: char): char
  {
    if 'A' <= c <= 'Z' then (c as int + 32) as char else c
  }

  function Lower(s: string): string
  {
    seq(|s|, i requires 0 <= i < |s| => LowerAscii(s[i]))
  }

  /** `s` ends with `suffix`, letters compared without case (`suffix` is in lower case). */
  predicate EndsWithIgnoringCase(s: string, suffix: string)
  {
    |suffix| <= |s| && Lower(s[|s| - |suffix|..]) == suffix
  }

  /** `.replace(/\.(png|jpg|jpeg)$/i, '')`: one trailing image extension, in any case, is cut. */
  function StripImageExtension(s: string): string
  {
    if EndsWithIgnoringCase(s, ".png") then s[..|s| - 4]
    else if EndsWithIgnoringCase(s, ".jpg") then s[..|s| - 4]
    else if EndsWithIgnoringCase(s, ".jpeg") then s[..|s| - 5]
    else s
  }

  /** The name kept from a relative path: its last segment after a split on '/' and '\',
      without an image extension; an empty last segment gives 'screenshot'. */
  function NameFromPath(p: string): string
  {
    var last := Paths.LastSegment(p);
    if last != "" then StripImageExtension(last) else "screenshot"
  }

  /** The generated name for a screenshot taken at `now`. */
  function GeneratedName(now: nat): string
  {
    "screenshot_" + NatToString(now)
  }

  /** `getOutputPath` for a screenshot named `name`: in the run's directory when the context
      has one, else in a fresh `output/screenshot_<ts>` directory. */
  function OutputFor(name: string, context: ActionContext, stamp: string): string
  {
    if Truthy(context.workflowOutputDir) then
      FileSystem.GetOutputPath("", FileSystem.Screenshot, Some(name), context.workflowOutputDir, stamp)
    else
      FileSystem.GetOutputPath("screenshot", FileSystem.Screenshot, Some(name), None, stamp)
  }

  /** The file a screenshot action writes. */
  function ScreenshotPath(path: Option<string>, filename: Option<string>, context: ActionContext, now: nat, stamp: string): string
  {
    if Truthy(path) then
      if IsAbsolute(path.value) then path.value else OutputFor(NameFromPath(path.value), context, stamp)
    else if Truthy(filename) then OutputFor(filename.value, context, stamp)
    else OutputFor(GeneratedName(now), context, stamp)
  }

  /** The one page call the handler makes. */
  datatype ScreenshotCall = ScreenshotCall(path: string, fullPage: bool)

  /** `action.fullPage ?? false`: a full-page shot only when `fullPage` is set to true. */
  function FullPage(fullPage: Option<bool>): (r: bool)
    ensures r <==> fullPage == Some(true)
  {
    fullPage.GetOr(false)
  }

  /** `ScreenshotHandler.execute`: the call it makes for a screenshot action. */
  function Execute(a: Action, context: ActionContext, now: nat, stamp: string): ScreenshotCall
    requires a.ScreenshotAction?
  {
    ScreenshotCall(ScreenshotPath(a.path, a.filename, context, now, stamp), FullPage(a.fullPage))
  }

  /** The priority: a non-empty `path` decides alone, then a non-empty `filename`; the clock is
      read for the name only when neither is given. */
  lemma PathFirst(path: Option<string>, f1: Option<string>, f2: Option<string>, context: ActionContext, n1: nat, n2: nat, stamp: string)
    ensures Truthy(path) ==> ScreenshotPath(path, f1, context, n1, stamp) == ScreenshotPath(path, f2, context, n2, stamp)
    ensures Truthy(path) && IsAbsolute(path.value) ==> ScreenshotPath(path, f1, context, n1, stamp) == path.value
    ensures !Truthy(path) && Truthy(f1) ==> ScreenshotPath(path, f1, context, n1, stamp) == ScreenshotPath(None, f1, context, n2, stamp)
  {
  }

  /** A named screenshot lands in the `screenshots` sub-directory of the run's directory, as
      `<name>.png`. */
  lemma NamedShotInRunDirectory(name: string, dir: string, stamp: string)
    requires name != "" && dir != ""
    ensures OutputFor(name, ActionContext(Some(dir)), stamp) == Paths.Join(Paths.Join(dir, "screenshots"), name + ".png")
  {
  }

  /** Without a run directory, it lands in the `screenshots` sub-directory of a fresh run
      directory for the workflow name 'screenshot' (`output/screenshot_<ts>`). */
  lemma NamedShotWithoutRunDirectory(name: string, context: ActionContext, stamp: string)
    requires name != "" && !Truthy(context.workflowOutputDir)
    ensures OutputFor(name, context, stamp)
         == Paths.Join(Paths.Join("output/screenshot_" + stamp, "screenshots"), name + ".png")
  {
    var dir := "output/screenshot_" + stamp;
    FileSystem.BaseDirectoryWithoutRun("screenshot", stamp);
    assert "output/" + "screenshot" + "_" + stamp == dir;
    assert FileSystem.BaseDirectory("", Some(dir), stamp) == dir;
    NamedShotInRunDirectory(name, dir, stamp);
  }

  /** An image extension in any letter case is cut from the name. */
  lemma StripRemovesExtension(stem: string, ext: string)
    requires Lower(ext) in {".png", ".jpg", ".jpeg"}
    ensures StripImageExtension(stem + ext) == stem
  {
    var s := stem + ext;
    assert s[|s| - |ext|..] == ext;
    if |ext| == 4 {
      assert s[..|s| - 4] == stem;
      if Lower(ext) == ".jpg" {
        assert !EndsWithIgnoringCase(s, ".png") by {
          assert Lower(s[|s| - 4..])[1] == 'j';
        }
      }
    } else {
      assert |ext| == 5;
      assert s[..|s| - 5] == stem;
      assert Lower(s[|s| - 4..]) == Lower(ext)[1..] by {
        assert s[|s| - 4..] == ext[1..];
      }
    }
  }

  /** A path whose last segment is only an extension, such as `shots/.PNG`, leaves an empty
      name; `getOutputPath` then treats the name as absent and writes `screenshot.png` straight
      into the run's directory, not into `screenshots`. */
  lemma BareExtensionFallsBack(dir: string, stamp: string)
    requires dir != ""
    ensures ScreenshotPath(Some("shots/.PNG"), None, ActionContext(Some(dir)), 0, stamp) == Paths.Join(dir, "screenshot.png")
  {
    BareExtensionName();
    assert !IsAbsolute("shots/.PNG");
    EmptyNameOutput(dir, stamp);
  }

  lemma EmptyNameOutput(dir: string, stamp: string)
    requires dir != ""
    ensures OutputFor("", ActionContext(Some(dir)), stamp) == Paths.Join(dir, "screenshot.png")
  {
    assert FileSystem.OutputName(FileSystem.Screenshot, Some("")) == "screenshot" + "." + "png" == "screenshot.png";
    assert FileSystem.BaseDirectory("", Some(dir), stamp) == dir;
    assert FileSystem.OutputDirectory(FileSystem.Screenshot, Some(""), dir) == dir;
  }

  lemma BareExtensionName()
    ensures NameFromPath("shots/.PNG") == ""
  {
    Paths.LastSegmentOfSuffix("shots/", ".PNG");
    assert "shots/.PNG" == "shots/" + ".PNG";
    assert Lower(".PNG") == ".png";
    assert StripImageExtension(".PNG") == "";
  }

  /** Generated names taken at different times differ. */
  lemma GeneratedNamesDiffer(n1: nat, n2: nat)
    requires n1 != n2
    ensures GeneratedName(n1) != GeneratedName(n2)
  {
    if GeneratedName(n1) == GeneratedName(n2) {
      assert NatToString(n1) == GeneratedName(n1)[11..];
      assert NatToString(n2) == GeneratedName(n2)[11..];
      ParseNatRoundTrip(n1);
      ParseNatRoundTrip(n2);
    }
  }
}
