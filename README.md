# play-flow, modelled in Dafny

play-flow runs browser-automation workflows. A workflow is a named list of actions (`goto`,
`click`, `fill`, `screenshot`, `waitForManualAction`, `showMessage`, …), stored as
`workflows/<name>/actions.json`. Running one does the following:

- loads and merges the global and per-workflow configuration;
- creates a timestamped run directory under `output/`;
- launches a recording browser;
- runs the actions one by one through an executor that dispatches each action to its handler;
- logs every action with a timecode logger (`timecode.txt`, a WebVTT marker file `markers.vtt` and
  an FFMETADATA chapter file `chapters.txt`);
- converts the recording to MP4 with those chapters, on success and, as a salvage, on failure.

The project models this core:

- `WorkflowManager`, `WorkflowRuns` and `WorkflowLogging` (`workflow_manager.dfy`,
  `workflow_runs.dfy`, `workflow_logging.dfy`) model `executeWorkflow`.
  - The run is a specification function, `RunWorkflow`, that returns the trace of external calls
    and the result.
  - A set of methods (`ExecuteWorkflow` and the steps below it) performs the same run step by step.
    It holds a real `TimecodeLogger` object, and each method is proved equal to its part of the
    specification.
  - The browser, the converter, the disk and the clock are a `World` parameter that answers every
    external call.
- `WorkflowCatalog` models `loadWorkflow` and `listWorkflows`, with the disk as answers to the
  calls they make.
- `TimecodeLogger` is a `class` with the logger's fields and one method per public operation.
  - Its state is also a value, `LoggerState`, and each method is proved equal to a step function
    on that value.
  - The file formats live in `TimeFormat`, `CueFile` and `ChapterFile`, each with a reader that
    proves the written text reads back.
- `Validation` models the zod schemas as data, over a parsed JSON value (`JsonValues.Json`).
- `ConfigManager` models configuration loading and the merge.
- `FileSystem` models the file-system manager, with failures as explicit outcomes.
- `Execution` and `Registry` model the action executor and the handler registration.
- `ScreenshotHandler`, `ShowMessageHandler` and `ManualGate` model the three handlers with logic of
  their own. The manual gate's marker-file polling loop is a `method` over sequences of clock
  readings and probes.
- `Actions`, `Errors`, `ConfigTypes` and `WorkflowTypes` hold the types. `Text`, `Paths` and
  `Wrappers` hold the JavaScript string, number and path helpers.

I/O, the clock and randomness are never called. `Date.now()`, `new Date().toISOString()`, the
disk, the browser and the converter are all parameters (`now`, `stamp`, `World`, `Disk`, `run`),
so each operation is deterministic in them.

`WorkflowManager.validateWorkflow` (src/core/workflow-manager.ts:39-41) only delegates to
`validateWorkflow`, which `Validation.ValidateWorkflow` models.

## Model

| member | source | states |
|---|---|---|
| Actions.AllTags | src/types/action.ts:1-16 | The fifteen action types, each exactly once. |
| Actions.AllTagsComplete | src/types/action.ts:1-16 | Every action type is among them. |
| Actions.TagNameRoundTrip | src/types/action.ts:1-16 | A type's spelling parses back to that type, and a string parses to a type only if it is that type's spelling. |
| Actions.TagNameInjective | src/types/action.ts:1-16 | Distinct action types have distinct spellings. |
| Actions.OneVariantPerTag | src/types/action.ts:120-135 | The `Action` union has one variant per type: every type has an action, and the type determines the variant. |
| Execution.ActionExecutor.constructor | src/browser/action-executor.ts:13-19 | A new executor has no handlers and an empty context. |
| Execution.ActionExecutor.SetContext | src/browser/action-executor.ts:21-23 | The context is replaced as a whole; the handlers are unchanged. |
| Execution.ActionExecutor.RegisterHandler | src/browser/action-executor.ts:25-27 | The type is bound to the handler (a later binding wins); nothing else changes. |
| Execution.ActionExecutor.ExecuteAction | src/browser/action-executor.ts:29-49 | The result is the dispatch to the type's handler with the current context. Every failure carries the index and the action. The missing-handler error occurs exactly when the type is unbound. |
| Execution.DistinctMessages | src/browser/action-executor.ts:33-47 | A wrapped handler failure never reads as a missing-handler error. |
| Execution.FreshExecutorFails | src/browser/action-executor.ts:17-38 | An executor with no registration fails every action with the missing-handler error for its index. |
| Execution.HandlerOutcomePropagates | src/browser/action-executor.ts:40-48 | A handler's success is the dispatch's success. A handler's failure is rethrown with the same index and action and with the cause in the message. |
| Execution.DispatchIgnoresOtherBindings | src/browser/action-executor.ts:29-30 | Dispatch depends only on the binding for the action's own type. |
| Registry.RegisterActionHandlers | src/browser/action-handler-registry.ts:18-34 | Every one of the fifteen types is bound to its own handler. The context is unchanged. |
| Registry.RegisteredTagBound | src/browser/action-handler-registry.ts:18-34 | After registration every type is bound to its standard handler, whatever was bound before. |
| Registry.RegistrationKeepsOthers | src/browser/action-handler-registry.ts:18-34 | Keys that are not type spellings keep their old binding or stay unbound. |
| Registry.RegisteredKeys | src/browser/action-handler-registry.ts:18-34 | A key is bound after registration exactly when it was bound before or names a type. |
| Registry.RegisteredDispatchFindsHandler | src/browser/action-handler-registry.ts:18-34 | After registration every action reaches its own handler, so the missing-handler error cannot occur. |
| ScreenshotHandler.FullPage | src/browser/actions/screenshot.ts:36-39 | The shot is full-page exactly when `fullPage` is true. |
| ScreenshotHandler.PathFirst | src/browser/actions/screenshot.ts:10-34 | A non-empty `path` decides alone, and an absolute one is used as given. Otherwise a non-empty `filename` decides. Only then is the clock read for a generated name. |
| ScreenshotHandler.NamedShotInRunDirectory | src/browser/actions/screenshot.ts:19-27 | A named shot lands at `<run dir>/screenshots/<name>.png`. |
| ScreenshotHandler.NamedShotWithoutRunDirectory | src/browser/actions/screenshot.ts:19-27 | Without a run directory, it lands under a fresh `output/screenshot_<stamp>/screenshots`. |
| ScreenshotHandler.StripRemovesExtension | src/browser/actions/screenshot.ts:18 | A `.png`, `.jpg` or `.jpeg` extension in any ASCII letter case is cut from the name. |
| ScreenshotHandler.BareExtensionFallsBack | src/browser/actions/screenshot.ts:16-21 | A path whose last segment is only an extension (`shots/.PNG`) gives an empty name. The shot is then written as `screenshot.png` in the run directory itself. |
| ScreenshotHandler.GeneratedNamesDiffer | src/browser/actions/screenshot.ts:28-34 | Generated names taken at different clock readings differ. |
| ShowMessageHandler.Duration | src/browser/actions/show-message.ts:11 | Only an absent duration takes the default of 5000; an explicit 0 is kept. |
| ShowMessageHandler.StyleOf | src/browser/actions/show-message.ts:12 | The style is `info` exactly when it is absent or is `info`. |
| ShowMessageHandler.CloseButton | src/browser/actions/show-message.ts:13 | The close button is hidden exactly when `closeButton` is false. |
| ShowMessageHandler.ExecuteShape | src/browser/actions/show-message.ts:7-22 | The overlay always shows the message at the given position. A second call, the five-minute wait for closing, happens exactly when the handler waits, and then the overlay has duration 0. |
| ShowMessageHandler.WaitIffNoTimer | src/browser/actions/show-message.ts:17 | The handler waits exactly when `waitForClose` is true and the overlay's duration is 0. |
| ShowMessageHandler.DefaultsExample | src/browser/actions/show-message.ts:8-14 | A message alone shows for 5000 ms in `info` style with a close button, and there is no wait. |
| ManualGate.GateMessage | src/browser/actions/wait-for-manual-action.ts:18 | The message is never empty. It is `message` when truthy, else `description` when truthy, else the default text. |
| ManualGate.GateTimeout | src/browser/actions/wait-for-manual-action.ts:19 | The timeout is never 0. Absent and zero both fall back to 300000. |
| ManualGate.PlanPriority | src/browser/actions/wait-for-manual-action.ts:24-50 | A truthy selector wins (waiting for visibility), then a truthy text, then the marker file. All modes use the same timeout. |
| ManualGate.PlanExamples | src/browser/actions/wait-for-manual-action.ts:24-47 | The selector, text and custom-timeout actions of the handler's tests give the calls those tests expect. |
| ManualGate.PollMarker | src/browser/actions/wait-for-manual-action.ts:59-79 | The polling loop stops at the round its readings determine. It reports whether the marker was removed. Its outcome is the verdict of the check after the loop. |
| ManualGate.StopsAtUnique | src/browser/actions/wait-for-manual-action.ts:62-74 | The round the loop stops at is unique. |
| ManualGate.PassNeedsMarker | src/browser/actions/wait-for-manual-action.ts:62-79 | With a clock that never goes back, the gate passes only after the marker was removed and before the time is up. |
| ManualGate.NoMarkerTimesOut | src/browser/actions/wait-for-manual-action.ts:62-79 | Without a marker, the gate fails with the timeout message. |
| ManualGate.RemovedAtDeadlineStillFails | src/browser/actions/wait-for-manual-action.ts:62-79 | A marker removed just before the deadline is deleted, yet the action still fails, because the check after the loop reads the clock again. |
| ManualGate.FailedRemovalIsNoRelease | src/browser/actions/wait-for-manual-action.ts:63-73 | A marker whose deletion throws is not a release: such a loop ended because the time was up. |
| ManualGate.WholeSeconds | src/browser/actions/wait-for-manual-action.ts:78 | A whole number of seconds is printed without decimals. |
| ManualGate.Millis | src/browser/actions/wait-for-manual-action.ts:78 | The fractional digits of `timeout / 1000` are one to three digits and never end in 0, as JavaScript prints a number. |
| ManualGate.TimedOutMessages | src/browser/actions/wait-for-manual-action.ts:78 | The default timeout reads "300 seconds"; 1500 ms reads "1.5". |
| FileSystem.TimestampHasNoSeparators | src/core/file-system-manager.ts:135-141 | A timestamp contains neither ':' nor '.'. |
| FileSystem.TimestampOfIso | src/core/file-system-manager.ts:135-141 | `<date>T<clock>.<ms>Z` becomes `<date>_<clock with ':' as '-'>`. |
| FileSystem.ReplaceFirstT | src/core/file-system-manager.ts:139 | `.replace('T', '_')` keeps the length and leaves a string without 'T' unchanged. `FileSystem.ReplaceFirstTAppend` proves that only the first 'T' becomes '_'. |
| FileSystem.TimestampExample | src/core/file-system-manager.ts:135-141 | 2024-01-15T10:30:45.123Z becomes 2024-01-15_10-30-45. |
| FileSystem.TimestampedFilenameParts | src/core/file-system-manager.ts:143-146 | The name starts with `<prefix>_`, and the text after its last dot is the requested extension. |
| FileSystem.TimestampedFilenameExample | src/core/file-system-manager.ts:143-146 | `test` and `mp4` at the test's instant give `test_2024-01-15_10-30-45.mp4`. |
| FileSystem.WorkflowOutputDirectoryShape | src/core/file-system-manager.ts:148-151 | The run directory is `output/<name>_<ts>`. A given non-empty timestamp is used as is, and its last segment is `<name>_<ts>`. |
| FileSystem.BaseDirectoryWithoutRun | src/core/file-system-manager.ts:153-154 | Without a run directory, output goes to a new `output/<name>_<stamp>`. |
| FileSystem.OutputPathShape | src/core/file-system-manager.ts:153-165 | Every output path starts with its base directory and ends in its kind's extension. A separator-free name is the path's last segment. |
| FileSystem.ExtensionAppendedAgain | src/core/file-system-manager.ts:160-164 | A file name that already has the extension gets it a second time (`custom-name.mp4.mp4`). |
| FileSystem.NamesOfKindMembers | src/core/file-system-manager.ts:65-97 | A name is listed exactly when some entry of that kind has it. |
| FileSystem.NamesOfKindAppend | src/core/file-system-manager.ts:65-97 | The filter keeps the listing order. |
| FileSystem.FilesAndDirectoriesCount | src/core/file-system-manager.ts:65-97 | Files and directories together are at most the entries, and exactly the entries when there is nothing else. |
| FileSystem.ListFilesMembers | src/core/file-system-manager.ts:65-83 | With a pattern, exactly the files whose names pass it are listed. A failed read is wrapped with the directory. |
| FileSystem.ListingExamples | src/core/file-system-manager.ts:65-97 | The directory listings of the tests give the files and the directories the tests expect. |
| FileSystem.WrapReportsCause | src/core/file-system-manager.ts:6-122 | Every wrapped failure starts "Failed to " and ends with the cause. It carries the path, except for a copy. |
| FileSystem.WriteFileFailure | src/core/file-system-manager.ts:17-30 | A write succeeds exactly when both the directory creation and the write do. A failure names the file, even when the directory failed, and then nests the directory error in the message. |
| FileSystem.CopyFileFailure | src/core/file-system-manager.ts:99-111 | A copy succeeds exactly when both steps do, and its failure carries no path. |
| ConfigManager.GetDefaultConfig | src/core/config-manager.ts:8-26 | The built-in values (1920x1080, 30 fps, 30000 ms timeouts, headed, slowMo 0) pass the global schema's bounds. |
| ConfigManager.MergeReadsOverrideFirst | src/core/config-manager.ts:103-126 | Every setting of the merge is the workflow's value when the workflow sets it, and the global value otherwise. |
| ConfigManager.SettingsDetermine | src/core/config-manager.ts:103-126 | Two configurations that agree on every setting are equal. |
| ConfigManager.EmptyOverrideKeepsGlobal | src/core/config-manager.ts:104-106 | A workflow configuration that sets nothing (`null`, `{}` or empty sections) leaves the global one unchanged. |
| ConfigManager.MergeKeepsSettings | src/core/config-manager.ts:103-126 | The merge never drops a global setting, and an unset override keeps it. |
| ConfigManager.MergeIdempotent | src/core/config-manager.ts:103-126 | Merging the same workflow configuration twice changes nothing more. |
| ConfigManager.LaterOverrideWins | src/core/config-manager.ts:103-126 | Of two overrides applied in turn, the later one wins, and each keeps what the other leaves unset. |
| ConfigManager.MergeKeepsBounds | src/core/config-manager.ts:103-126 | A valid global configuration merged with a valid workflow configuration is still valid. |
| ConfigManager.MergeExamples | src/core/config-manager.ts:103-126 | The merge tests: overriding headless, slowMo and fps keeps the rest, and a width alone keeps the global height. |
| ConfigManager.LoadGlobalPrecedence | src/core/config-manager.ts:28-73 | An existing user file decides alone. Its outcome is its own schema check. With neither file the built-in values are used. |
| ConfigManager.ShippedFileSecond | src/core/config-manager.ts:46-62 | Without a user file, the shipped default file decides, whatever the user path. |
| ConfigManager.LoadedGlobalValid | src/core/config-manager.ts:28-73 | Whatever is loaded passes the global schema's bounds. |
| ConfigManager.SchemaFailureReported | src/core/config-manager.ts:35-58 | A schema failure is a `ConfigError` naming the failing file, with "Invalid global/default config: ", rethrown unwrapped. |
| ConfigManager.ReadFailureWrapped | src/core/config-manager.ts:67-72 | Any other failure, in either file, is wrapped with the user's path. |
| ConfigManager.LoadWorkflowConfigOutcome | src/core/config-manager.ts:75-101 | No file means `null`, exactly. A loaded configuration passes the workflow schema. Every failure names `workflows/<name>/config.json`. |
| ConfigManager.LoadAndMergeValid | src/core/config-manager.ts:128-132 | The configuration of a run passes the global bounds. Without a workflow file it is the global configuration. |
| Validation.StringCheckIssuesEmpty | src/utils/validation.ts:12-77 | A string passes its refinements (`min(1)`, `url()`) exactly when it meets each one. |
| Validation.NumberCheckIssuesEmpty | src/utils/validation.ts:56-140 | A number passes its refinements (`positive`, `nonnegative`, `max`) exactly when it meets each one. |
| Validation.ParseActionAt | src/utils/validation.ts:105-121 | A rejected action always has at least one issue. |
| Validation.BuildAction | src/utils/validation.ts:10-121 | The typed action built from an object that passed the schema for a type is of that type. |
| Validation.ActionRoundTrip | src/utils/validation.ts:3-121 | Every valid action, written as JSON, parses back to itself at any path. |
| Validation.ActionSound | src/utils/validation.ts:3-121 | A parsed action comes from an object with a known `type`, is built from its fields, and meets every refinement. |
| Validation.ActionJsonAcceptedIffValid | src/utils/validation.ts:3-121 | A written action is accepted exactly when it is valid, and then it parses to itself. |
| Validation.ActionIssuesUnder | src/utils/validation.ts:105-121 | Every issue of an action lies at or below the action's path. |
| Validation.Partial | src/utils/validation.ts:150-153 | `.partial()` makes every top-level field optional and nothing else. |
| Validation.ParseGlobalConfig | src/utils/validation.ts:123-148 | A rejected global configuration always has at least one issue. Its meaning is proved by `Validation.GlobalConfigSound`. |
| Validation.ParseWorkflowConfig | src/utils/validation.ts:150-153 | A rejected workflow configuration always has at least one issue. Its meaning is proved by `Validation.WorkflowConfigSound`. |
| Validation.GlobalConfigSound | src/utils/validation.ts:123-148 | An accepted global configuration meets every bound (positive sizes and timeouts, nonnegative slowMo, fps in (0, 60]). |
| Validation.WorkflowConfigSound | src/utils/validation.ts:150-153 | An accepted workflow configuration meets every bound. Any viewport or size it carries has both dimensions, because `.partial()` is shallow. |
| Validation.EmptyWorkflowConfigAccepted | src/utils/validation.ts:150-153 | `{}` is a valid workflow configuration. |
| Validation.EmptySectionsAccepted | src/utils/validation.ts:150-153 | Empty `browser` and `video` sections are accepted. |
| Validation.CollectKeepsErrors | src/utils/validation.ts:157 | One failing element fails the array, with all its issues reported. |
| Validation.ParseActionsOk | src/utils/validation.ts:157 | The array parses exactly when every element does, element by element, in order. |
| Validation.ParseActionsErrors | src/utils/validation.ts:157 | Every issue of a failing element is reported. |
| Validation.ParseActions | src/utils/validation.ts:157 | A rejected `actions` array always has at least one issue. `Validation.ParseActionsOk` and `Validation.ParseActionsErrors` prove what it accepts and reports. |
| Validation.ParseWorkflow | src/utils/validation.ts:155-159 | A rejected workflow has at least one issue. |
| Validation.WorkflowSound | src/utils/validation.ts:155-159 | An accepted workflow has a non-empty name, one valid action per element in order, and a configuration within bounds. |
| Validation.EmptyActionsAccepted | src/utils/validation.ts:155-159 | An empty action list is a valid workflow. |
| Validation.EmptyNameRejected | src/utils/validation.ts:156 | An empty name is rejected with a too-small issue at `name`. |
| Validation.InvalidActionRejectsWorkflow | src/utils/validation.ts:155-159 | One invalid action rejects the workflow, with all its issues reported. |
| Validation.ItemFieldText | src/utils/validation.ts:193 | An issue below element i of `actions` is reported at `actions.<i>…`. |
| Validation.ReportOf | src/utils/validation.ts:161-201 | Valid exactly when parsed, with the data. Otherwise one error per issue, carrying the index and the joined path. Any other failure is one "Unknown validation error". |
| Validation.ValidateActionTagsIndex | src/utils/validation.ts:161-181 | `validateAction` is valid exactly when the parse succeeds, then with a valid action. Otherwise there is at least one error, and every error carries the given index. |
| Validation.ValidateWorkflowRejectsInvalidAction | src/utils/validation.ts:183-201 | A workflow with an invalid action is invalid, with an error whose field starts `actions.<i>`. |
| Validation.OneIssueReport | src/utils/validation.ts:161-181 | A parse failing with one issue reports one error at that issue's field. |
| Validation.GotoWithoutUrl | src/utils/validation.ts:10-13 | `{type:'goto'}` is rejected with "Required" at `url`, index 0. |
| Validation.NotAUrl | src/utils/validation.ts:12 | "not-a-url" is not a URL. |
| Validation.GotoWithBadUrl | src/utils/validation.ts:10-13 | A goto with "not-a-url" is rejected with "Invalid url" at `url`. |
| Validation.ClickWithEmptySelector | src/utils/validation.ts:15-18 | A click with an empty selector is rejected with a too-small issue at `selector`. |
| Validation.BareScreenshotAccepted | src/utils/validation.ts:42-47 | `{type:'screenshot'}` is valid, with every option absent. |
| Validation.UnknownTypeRejected | src/utils/validation.ts:105 | An unknown `type` gives one invalid-discriminator error at `type`. |
| WorkflowCatalog.LoadWorkflowOutcome | src/core/workflow-manager.ts:15-37 | Loads exactly when the actions file exists, reads and parses, and the configuration loads. The workflow then has the name, the parsed actions and the configuration. A missing file gives "not found". A failed read names the file. |
| WorkflowCatalog.NotAfterTotal | src/core/workflow-manager.ts:272 | The sort order compares any two names. |
| WorkflowCatalog.NotAfterTransitive | src/core/workflow-manager.ts:272 | The sort order is transitive. |
| WorkflowCatalog.Insert | src/core/workflow-manager.ts:272 | Inserting adds exactly that name. |
| WorkflowCatalog.InsertSorted | src/core/workflow-manager.ts:272 | Inserting into a sorted list keeps it sorted. |
| WorkflowCatalog.SortNames | src/core/workflow-manager.ts:272 | `sort()` returns the same names with the same multiplicities. `WorkflowCatalog.SortNamesSorted` proves that they come out sorted. |
| WorkflowCatalog.SortNamesSorted | src/core/workflow-manager.ts:272 | Sorting gives a sorted permutation of the names. |
| WorkflowCatalog.WithActionsMembers | src/core/workflow-manager.ts:265-270 | A directory is kept exactly when it is listed and holds `actions.json`. |
| WorkflowCatalog.WorkflowNamesSpec | src/core/workflow-manager.ts:255-273 | The names are sorted, and are exactly the listed directories with an actions file, as a multiset. There are none without `workflows`. The listing fails only when `workflows` exists and cannot be read. |
| WorkflowCatalog.ListedWorkflowsLoad | src/core/workflow-manager.ts:15-37 | Every listed workflow passes `loadWorkflow`'s existence check. |
| WorkflowCatalog.ListWorkflows | src/core/workflow-manager.ts:255-273 | The method returns the specified names. |
| TimeFormat.FormatTimeRoundTrip | src/utils/timecode-logger.ts:175-182 | The log time `MM:SS.mmm` reads back as the milliseconds. |
| TimeFormat.FormatVttTimeRoundTrip | src/utils/timecode-logger.ts:166-173 | The corrected cue timestamp is a well-formed WebVTT timestamp that reads back as the time. |
| TimeFormat.VttTimeAgreesBelowOneHour | src/utils/timecode-logger.ts:166-173 | Below one hour the formatter as written equals the corrected one. |
| TimeFormat.MinutesPastLimitRejected | src/utils/timecode-logger.ts:166-173 | With hour "00", a minutes field of 60 or more is never a WebVTT timestamp. |
| TimeFormat.VttTimeAsWrittenPastOneHour | src/utils/timecode-logger.ts:166-173 | From one hour on, the formatter as written produces no valid WebVTT timestamp. |
| TimeFormat.VttTimeIsOneWord | src/utils/timecode-logger.ts:166-173 | A cue timestamp has no blank and no line break. |
| TimeFormat.FormatTimeExample | src/utils/timecode-logger.ts:175-182 | 65300 ms is "01:05.300". |
| TimeFormat.FormatVttTimeExample | src/utils/timecode-logger.ts:166-173 | 65300 ms is "00:01:05.300". |
| TimeFormat.FormatVttTimeAsWrittenExample | src/utils/timecode-logger.ts:166-173 | As written, one hour is "00:60:00.000". |
| TimeFormat.FormatVttTimeHourExample | src/utils/timecode-logger.ts:166-173 | Corrected, one hour is "01:00:00.000". |
| TimeFormat.FormatDurationExamples | src/utils/timecode-logger.ts:184-195 | 125750 ms is "2m 5s 750ms", and 5250 ms is "5s 250ms". |
| TimeFormat.FormatDurationRoundTrip | src/utils/timecode-logger.ts:184-195 | The total duration reads back as the milliseconds. |
| Text.NatToString | src/utils/timecode-logger.ts:172 | `Number.prototype.toString` of a natural number is a non-empty digit string. `Text.ParseNatRoundTrip` proves that it reads back as the number. |
| Text.PadStart | src/utils/timecode-logger.ts:172 | `padStart` gives a string of the given width, or the string's own length when that is larger. |
| Text.PadStartShape | src/utils/timecode-logger.ts:172 | The padded string is fill characters followed by the whole string. |
| Text.PadEnd | src/utils/timecode-logger.ts:50 | `padEnd` gives at least the width and keeps the string as a prefix. |
| Text.PadEndShape | src/utils/timecode-logger.ts:50 | What `padEnd` adds after the string is blanks. |
| Text.JsRem | src/utils/timecode-logger.ts:169-170 | JavaScript's `%` for a positive divisor: the remainder is smaller than the divisor in magnitude, and is Euclid's for a non-negative dividend. |
| Text.JsRemQuot | src/utils/timecode-logger.ts:169-170 | The remainder takes the dividend's sign, and the dividend is the divisor times the quotient rounded toward zero, plus the remainder. |
| CueFile.BuildWebVtt | src/utils/timecode-logger.ts:129-142 | The loop's text is the marker file as written. |
| CueFile.WebVttRoundTrip | src/utils/timecode-logger.ts:129-142 | The corrected marker file reads back as exactly its cues. |
| CueFile.WebVttAgreesWithinOneHour | src/utils/timecode-logger.ts:129-142 | Within the first hour the file as written is the corrected file. |
| CueFile.WebVttAsWrittenRoundTrip | src/utils/timecode-logger.ts:129-142 | The file as written reads back as its cues while none reaches one hour. |
| CueFile.WebVttDiffersAtOneHour | src/utils/timecode-logger.ts:133-134 | A cue at one hour makes the file as written differ from the corrected one. |
| CueFile.CueRoundTrip | src/utils/timecode-logger.ts:133-135 | One cue block reads back as its cue. |
| ChapterFile.Entries | src/utils/timecode-logger.ts:144-164 | There is one entry per chapter. |
| ChapterFile.BuildChapters | src/utils/timecode-logger.ts:144-164 | The loop's text is the chapter file. |
| ChapterFile.AppendChapter | src/utils/timecode-logger.ts:149-160 | One callback appends exactly the block of chapter i. |
| ChapterFile.EndIsNextStart | src/utils/timecode-logger.ts:149-160 | Each chapter but the last ends where the next starts; the last has no END. |
| ChapterFile.ChapterFileRoundTrip | src/utils/timecode-logger.ts:144-164 | The chapter file reads back as each chapter's START, END and title. |
| TimecodeLogger.DefaultDescription | src/utils/timecode-logger.ts:197-230 | A default description is never empty. |
| TimecodeLogger.Describe | src/utils/timecode-logger.ts:51 | The description of an action is never empty. |
| TimecodeLogger.ClockResetOnce | src/utils/timecode-logger.ts:41-44 | The origin is reset once, to the reading of the first logged `goto`, and never again. |
| TimecodeLogger.OneEntryPerLoggedAction | src/utils/timecode-logger.ts:55-60 | Each `logAction` adds one entry, and nothing else adds or removes one. |
| TimecodeLogger.LoggedEntry | src/utils/timecode-logger.ts:51-60 | A new entry has duration 0 and the action's type and description. The description is the given one when truthy, else the default. |
| TimecodeLogger.MarkersUnlessSkipped | src/utils/timecode-logger.ts:64-81 | A marker is added exactly when neither `skipAllVtt` nor `skipVtt` is set, a chapter exactly when neither `skipAllChapters` nor `skipChapter` is. Earlier ones are kept. |
| TimecodeLogger.CuesStayWellFormed | src/utils/timecode-logger.ts:66-71 | Every marker ends 3000 ms after it starts, at every step. |
| TimecodeLogger.CompletionAndErrorTouchOnlyTheLog | src/utils/timecode-logger.ts:84-109 | Completion only sets the last entry's duration and appends a line. An error only appends a line. |
| TimecodeLogger.LogOnlyGrows | src/utils/timecode-logger.ts:25-127 | After the header, every call only appends to the log. |
| TimecodeLogger.GeneratedFilesReadBack | src/utils/timecode-logger.ts:129-164 | Regenerating gives the same files. The chapter file reads back as the chapters, and the marker file as the markers within one hour. |
| TimecodeLogger.ChaptersStayInOrder | src/utils/timecode-logger.ts:39-82 | After the reset, with a clock that never goes back, chapters stay in time order. |
| TimecodeLogger.ChaptersInOrderWhenGotoFirst | src/utils/timecode-logger.ts:39-82 | A run whose first action is a `goto` gets its chapters in time order. |
| TimecodeLogger.ClickBeforeGotoUnordered | src/utils/timecode-logger.ts:41-44 | A click at 5000 then a goto at 6000 give chapters at 5000 and 0, out of order. |
| TimecodeLogger.SelectorDescriptionExamples | src/utils/timecode-logger.ts:197-230 | The fill and type descriptions of the tests. |
| TimecodeLogger.HoverDescriptionExamples | src/utils/timecode-logger.ts:197-230 | The hover and wait-for-selector descriptions of the tests. |
| TimecodeLogger.ToggleDescriptionExamples | src/utils/timecode-logger.ts:197-230 | The select-option and check descriptions of the tests. |
| TimecodeLogger.KeyDescriptionExamples | src/utils/timecode-logger.ts:197-230 | The uncheck and press descriptions of the tests. |
| TimecodeLogger.ScreenshotDescriptionExamples | src/utils/timecode-logger.ts:197-230 | The screenshot and evaluate descriptions of the tests. |
| TimecodeLogger.GivenDescriptionExamples | src/utils/timecode-logger.ts:51 | A non-empty description wins; an empty one falls back to the default. |
| TimecodeLogger.WaitDescriptionExample | src/utils/timecode-logger.ts:197-230 | A 2000 ms wait is described as "Wait 2000ms". |
| TimecodeLogger.TimecodeLogger.constructor | src/utils/timecode-logger.ts:16-37 | The logger starts at the initial state: clock at `now`, header written, the three files under the run directory. |
| TimecodeLogger.TimecodeLogger.LogAction | src/utils/timecode-logger.ts:39-82 | The new state is one `logAction` step of the old. |
| TimecodeLogger.TimecodeLogger.StartClock | src/utils/timecode-logger.ts:41-44 | The new state is the old with the clock reset on a first `goto`. |
| TimecodeLogger.TimecodeLogger.RecordEntry | src/utils/timecode-logger.ts:46-81 | The new state has the entry, the log line, the marker and the chapter of the action. |
| TimecodeLogger.TimecodeLogger.LogActionComplete | src/utils/timecode-logger.ts:84-100 | The new state is one completion step of the old. |
| TimecodeLogger.TimecodeLogger.LogError | src/utils/timecode-logger.ts:102-109 | The new state is one error step of the old. |
| TimecodeLogger.TimecodeLogger.Finalize | src/utils/timecode-logger.ts:111-127 | The new state has the footer, then both generated files. |
| TimecodeLogger.TimecodeLogger.GenerateWebVtt | src/utils/timecode-logger.ts:129-142 | The marker file becomes the file as written for the markers; nothing else changes. |
| TimecodeLogger.TimecodeLogger.GenerateChapters | src/utils/timecode-logger.ts:144-164 | The chapter file becomes the file for the chapters; nothing else changes. |
| TimecodeLogger.TimecodeLogger.GenerateFiles | src/utils/timecode-logger.ts:240-244 | Both files are generated from the current markers and chapters. |
| WorkflowManager.ExecuteWorkflow | src/core/workflow-manager.ts:43-253 | The calls and result are the specified run. The logger exists exactly when the main block created one, and its state is the logger replayed over the run's logger calls. |
| WorkflowManager.MainBlock | src/core/workflow-manager.ts:50-194 | The `try` block is the specified one. A logger exists exactly when recording, with its chapter file in the run directory, and its state follows the calls. |
| WorkflowManager.Launch | src/core/workflow-manager.ts:56-68 | The run directory and `screenshots` are created before the browser is launched. Each failure stops the block. |
| WorkflowManager.Open | src/core/workflow-manager.ts:62-77 | After a launch, a logger is created exactly when recording; then the actions run. |
| WorkflowManager.Drive | src/core/workflow-manager.ts:84-187 | The executor gets the run directory and the standard handlers; then the actions run and the run is wrapped up. |
| WorkflowManager.RunActions | src/core/workflow-manager.ts:91-127 | The loop is the specified one: the rounds in order, to the first that throws. The logger follows the calls. |
| WorkflowManager.RunRound | src/core/workflow-manager.ts:92-126 | One round is the specified round, and the logger follows its calls. |
| WorkflowManager.OpenRound | src/core/workflow-manager.ts:97-113 | The start of a round is the specified opening: the action is logged when there is a logger, then executed. The logger's state is the replay of those calls. |
| WorkflowManager.Record | src/core/workflow-manager.ts:97-121 | One logger call (log, completion or error) is added to the trace exactly when the logger exists, and the logger's state follows the trace. |
| WorkflowManager.CloseRound | src/core/workflow-manager.ts:114-126 | The end of a round is the specified closing for the action's outcome, and the logger's state follows the trace. |
| WorkflowManager.RoundFailed | src/core/workflow-manager.ts:118-123 | After a throwing action the error is logged and the action's error is thrown, as specified, with no pause. |
| WorkflowManager.RoundPassed | src/core/workflow-manager.ts:114-126 | After a successful action its completion is logged with the measured duration, then the pause runs, and only the pause's failure is thrown. |
| WorkflowManager.Finish | src/core/workflow-manager.ts:132-179 | The page is closed, the recording kept when recording, the session saved when asked, and the browser closed, as specified. |
| WorkflowManager.KeepRecording | src/core/workflow-manager.ts:139-172 | The last recording, if any, is copied, the logger's files are generated, and the recording is converted with the chapter file. |
| WorkflowManager.CopyAndConvert | src/core/workflow-manager.ts:153-169 | Copy, optional file generation, conversion and deletion, as specified. |
| WorkflowManager.Generate | src/core/workflow-manager.ts:156-159 | The logger's files are generated exactly when there is a logger, and the logger's state follows the trace. |
| WorkflowManager.ConvertAndClean | src/core/workflow-manager.ts:156-168 | File generation, conversion and deletion of the temporary recording are the specified ones, and the video path is the MP4 path exactly when the conversion succeeds. |
| WorkflowManager.CloseUp | src/core/workflow-manager.ts:173-179 | After the page is closed and the video saved, the session is saved when asked and the browser closed, as specified. These steps make no logger call. |
| WorkflowManager.Recover | src/core/workflow-manager.ts:199-227 | The salvage after a throw is the specified one, and it makes no logger call. |
| WorkflowManager.Catch | src/core/workflow-manager.ts:195-236 | The `catch` block before the finalization is the specified one. |
| WorkflowManager.Conclude | src/core/workflow-manager.ts:238-251 | The logger is finalized with the duration, exactly when it exists. |
| WorkflowManager.RoundExecutesOne | src/core/workflow-manager.ts:91-127 | Each round executes exactly its own action, and goes on exactly when the action and the pause succeed. |
| WorkflowManager.LoopRunsInOrder | src/core/workflow-manager.ts:91-127 | The loop executes the rounds in index order up to the first that throws, and throws what that round throws. |
| WorkflowManager.RoundLoggerCalls | src/core/workflow-manager.ts:97-121 | A round calls the logger only when it exists, and never generates files or finalizes. |
| WorkflowManager.VideoPathsAreOutputPaths | src/core/workflow-manager.ts:149-150 | The two video paths are `<dir>/video.webm.mp4` and `<dir>/video.mp4`, which differ. |
| WorkflowManager.TransferIsQuiet | src/core/workflow-manager.ts:153-169 | Saving a recording without a logger makes no logger call. |
| WorkflowManager.CaughtIsQuiet | src/core/workflow-manager.ts:195-236 | The recovery never calls the logger. |
| WorkflowRuns.RunRoundsExecuteOne | src/core/workflow-manager.ts:91-127 | Each round of a run executes its own action. |
| WorkflowRuns.RoundProtocol | src/core/workflow-manager.ts:97-126 | The action is logged right before it runs. On success the completion is logged with the index and measured duration, then the pause. On failure the error is logged and the handler's error is thrown, with no completion and no pause. |
| WorkflowRuns.ClosingProtocol | src/core/workflow-manager.ts:111-126 | The end of a round logs a completion only after a handler that succeeded, and otherwise logs and throws the error. |
| WorkflowRuns.RoundThrows | src/core/workflow-manager.ts:111-126 | A round throws its own action's execution error, or the failure of the pause. |
| WorkflowRuns.DrivenRunsInOrder | src/core/workflow-manager.ts:84-187 | Once the browser runs, the actions execute in index order, each once, up to the first that throws, and the wrap-up executes none. |
| WorkflowRuns.DrivenHalts | src/core/workflow-manager.ts:91-187 | Rounds before the halt succeed. The halting round fails, and its error is the block's. Without a halt, the block throws what the wrap-up throws. |
| WorkflowRuns.WrapupThrowsNoExecution | src/core/workflow-manager.ts:132-187 | The wrap-up never throws an action's error. |
| WorkflowRuns.NoRunDirectory | src/core/workflow-manager.ts:59 | A run directory that cannot be created stops the run before any action. |
| WorkflowRuns.NoShotsDirectory | src/core/workflow-manager.ts:60 | So does a `screenshots` directory that cannot be created. |
| WorkflowRuns.ActionsRunInOrder | src/core/workflow-manager.ts:43-253 | A run executes the actions in index order, each at most once, and stops at the first that throws. It succeeds exactly when it has no error. |
| WorkflowRuns.RunTrace | src/core/workflow-manager.ts:43-253 | A run is its main block followed by the rest, and reports what the main block threw. |
| WorkflowRuns.SuccessTrace | src/core/workflow-manager.ts:181-194 | A successful run is the main block, which threw nothing, then the finalization. |
| WorkflowRuns.FailureTrace | src/core/workflow-manager.ts:195-252 | A failed run is the main block, the `catch` block, then the finalization. |
| WorkflowLogging.TryBlockGuarded | src/core/workflow-manager.ts:72-127 | The main block calls the logger only while it exists, which is only when recording. |
| WorkflowLogging.FinalizedLast | src/core/workflow-manager.ts:184-187 | After guarded calls, the finalization is the last call, the only one, and there exactly when the logger exists. |
| WorkflowLogging.FinalizedOnceAtEnd | src/core/workflow-manager.ts:184-187 | On both exits the logger is finalized with the run's duration, once, as the run's last call, exactly when it exists. |
| WorkflowLogging.SuccessConvertsAfterFiles | src/core/workflow-manager.ts:153-164 | A successful run converts only after the logger's files are written, with the chapter file of its run directory. |
| WorkflowLogging.CaughtUnwriting | src/core/workflow-manager.ts:199-227 | The `catch` block writes no logger file, and converts with the failed run's chapter file. |
| WorkflowLogging.SalvageConvertsBeforeChapters | src/core/workflow-manager.ts:216-219 | After an action fails, the files are never generated, and the salvage converts with a chapter file nothing has written yet. |
| WorkflowLogging.SalvageConvertsUngenerated | src/core/workflow-manager.ts:216-219 | The salvage as written never generates the files, so a conversion with a logger happens before the chapter file exists. |
| WorkflowLogging.SalvageWithChaptersGeneratesFirst | src/core/workflow-manager.ts:156-164 | The corrected salvage converts only after the logger's files are written. |
| WorkflowLogging.SalvageDirectoryDiffers | src/core/workflow-manager.ts:211 | With a different timestamp, the salvage directory is not the run directory. |
| WorkflowLogging.CompletedVideo | src/core/workflow-manager.ts:139-172 | A main block that throws nothing leaves the video path in the run directory. |
| WorkflowLogging.CaughtVideo | src/core/workflow-manager.ts:205-222 | The salvage sets the video path in the salvage directory. |
| WorkflowLogging.ResultShape | src/core/workflow-manager.ts:189-251 | Success exactly when the main block threw nothing, then with the run directory, no error and the video there. On failure, no directory and the thrown error. The duration is set in both cases. |

## Left out

- Validation.ValidateAction: JSON numbers are integers only (`JsonValues.JNum`), so fractional `timeout`, `duration`, `fps` and `slowMo` values such as 1.5, which `z.number()` accepts, cannot be written.
- Validation.ValidateAction: `ValidUrl` approximates `new URL` by a scheme followed by ':'. It accepts "http:", which `new URL` rejects, and rejects " http://x", which `new URL` accepts after trimming.
- Validation.ValidateWorkflow: it inherits both approximations of `ValidateAction`.
- Validation: a zod issue's message is represented by its issue code (`IssueMessage(Required)`, `IssueMessage(InvalidUrl)`, …), not by zod's English text.
- WorkflowCatalog.LoadWorkflow: the `JSON.parse` of the actions file is a `parse` parameter that returns typed actions. The source keeps the parsed JSON unchecked; it is validated later, by the `execute` command (src/cli/commands/execute.ts:19). So null entries cannot be represented, nor can the `if (!action) continue` skip of src/core/workflow-manager.ts:93.
- TimecodeLogger.TimecodeLogger.constructor: the header write (`writeFileSync`, src/utils/timecode-logger.ts:36) never fails in the model.
- TimecodeLogger.TimecodeLogger.LogAction: the `appendFileSync` never fails in the model. In the source it can throw, and `logAction` is called outside the inner `try` (src/core/workflow-manager.ts:99). All logger writes are modelled as text held in the logger's state.
- TimecodeLogger.GeneratedFilesReadBack: the marker file reads back only while no marker reaches one hour (see Findings).
- The test's log file name `<name>_<timestamp>_timecode.txt` is out of date; the code writes `timecode.txt` in the run directory, and the model follows the code.
- Paths.Join: `path.join` is one '/' between the parts, with no normalisation of `.`, `..` or doubled separators.
- WorkflowCatalog.NotAfter: names are ordered by code point, while JavaScript's `sort()` compares UTF-16 code units; they differ only outside the Basic Multilingual Plane.
- ScreenshotHandler.StripImageExtension: the `/i` extension match folds ASCII letters only.
- chalk/console output is dropped everywhere, and so are the 1000 ms waits: between marker polls (`page.waitForTimeout(1000)`), after the page is closed on success (`setTimeout(…, 1000)`, src/core/workflow-manager.ts:136), and after the page is closed in the salvage (:203).
- The clock (`Date.now()`, `new Date().toISOString()`), the browser, Playwright's page calls, the video converter, the session file and the disk are parameters (`now`, `stamp`, `World`, `Disk`, `run`). BrowserController and VideoConverter are not part of this model.
- `createWorkflowTemplate` (src/core/workflow-manager.ts:275-318) is left out: it only writes a fixed template file.
- The fifteen simple handlers (`goto`, `click`, …) are single Playwright calls. They are `run` results, not models.
- `readFileBuffer` is `readFile` with the content left out: both are the same wrapping of one underlying call (`FileSystem.Single`).
- WorkflowRuns.ActionsRunInOrder: a throw inside `finalize` after the `try` is not modelled, since the logger's writes never fail.
- ManualGate.PollMarker: the loop is bounded by a `deadline` round at which the clock has passed the timeout. A clock that never reaches the timeout is not modelled.
- TimecodeLogger.TimecodeLogger.LogAction: it takes the `index` argument and, like the source's unused `_index`, ignores it. The `Logged` logger event that drives the state and the step function `TimecodeLogger.LogActionStep` have no index at all.
- TimecodeLogger.TimecodeLogger.constructor: the source's `_timestamp` argument (src/utils/timecode-logger.ts:16) is unused, and the constructor leaves it out.
- TimecodeLogger.TimecodeLogger.LogAction: the source reads `Date.now()` twice, once for the reset of the start time (src/utils/timecode-logger.ts:42) and once for the elapsed time (:46). The model takes one reading `now` for both, so the entry of the first `goto` is always at `00:00.000`, while the source can put it a millisecond or so later.
- WorkflowManager.ExecuteWorkflow: the disk's answers are keyed by the call, so every `mkdir` of the same directory gets the same answer. `copyFile`'s own directory creation (src/core/file-system-manager.ts:103) answers as the run directory's creation at src/core/workflow-manager.ts:59 did, and so does the salvage's second creation of its directory. A copy whose directory creation fails after an earlier creation of the same directory succeeded cannot occur in the model, which matches `mkdir -p` on a working disk.

## Findings

| source | as written | input that shows it | evidently intended | confidence | as-written member | corrected member |
|---|---|---|---|---|---|---|
| src/utils/timecode-logger.ts:166-173 | `formatVTTTime` writes a constant `00:` hour and then `formatTime`'s unbounded minutes. The marker file (src/utils/timecode-logger.ts:133-134) is rendered with it. | A marker at 3600000 ms is written `00:60:00.000`, which is not a WebVTT timestamp (minutes must be below 60). | `01:00:00.000`: an hour field and minutes below 60. | not executed | TimeFormat.FormatVttTimeAsWritten and CueFile.WebVttFileAsWritten (the logger's `GenerateWebVtt` uses them), shown by TimeFormat.VttTimeAsWrittenPastOneHour and CueFile.WebVttDiffersAtOneHour; CueFile.WebVttAgreesWithinOneHour proves they agree below one hour | TimeFormat.FormatVttTime and CueFile.WebVttFile, with TimeFormat.FormatVttTimeRoundTrip and CueFile.WebVttRoundTrip |
| src/core/workflow-manager.ts:216-219 | After an action fails, the salvage converts the recording with the logger's chapter file path. Only `finalize`, at src/core/workflow-manager.ts:241-244, after the salvage, ever writes that file. | Any recorded run in which an action throws: the converter is handed `chapters.txt` before it exists, so the salvaged video gets no chapters. | Generate the logger's files before converting, as the success path does at src/core/workflow-manager.ts:157-159. | not executed | WorkflowManager.Salvage, shown by WorkflowLogging.SalvageConvertsUngenerated and WorkflowLogging.SalvageConvertsBeforeChapters | WorkflowManager.SalvageWithChapters, with WorkflowLogging.SalvageWithChaptersGeneratesFirst |
