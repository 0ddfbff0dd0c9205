/** The timecode logger: a per-workflow record of when each action ran, written as a plain-text
    log (`timecode.txt`), a WebVTT marker file (`markers.vtt`) and an FFmpeg chapter file
    (`chapters.txt`). The clock is a parameter (`now`, in milliseconds); each file is modelled
    as a text buffer. */
module TimecodeLogger {
  import opened Wrappers
  import opened Text
  import opened TimeFormat
  import opened Actions
  import opened CueFile
  import opened ChapterFile
  import Paths

  /** One line of the in-memory log: the formatted time, the measured duration, the action's
      type and its description. */
  datatype LogEntry = LogEntry(time: string, duration: int, action: string, description: string)

  datatype LoggerConfig = LoggerConfig(skipAllVtt: Option<bool>, skipAllChapters: Option<bool>)

  const NoConfig := LoggerConfig(None, None)

  /** How long every marker stays on screen. */
  const CueLength := 3000

  /** JavaScript truthiness of an optional flag. */
  predicate IsSet(flag: Option<bool>) { flag == Some(true) }

  // Descriptions

  /** The description used when an action has none. */
  function DefaultDescription(a: Action): (d: string)
    ensures d != ""
  {
    match a
    case GotoAction(_, url) => "Navigate to " + url
    case ClickAction(_, selector) => "Click " + selector
    case FillAction(_, selector, value) => "Fill " + selector + " with \"" + value + "\""
    case TypeAction(_, selector, _) => "Type text in " + selector
    case PressAction(_, key) => "Press " + key
    case HoverAction(_, selector) => "Hover over " + selector
    case ScreenshotAction(_, _, filename, _) =>
      "Take screenshot" + (if Truthy(filename) then " (" + filename.value + ")" else "")
    case WaitForSelectorAction(_, selector) => "Wait for " + selector
    case WaitForTimeoutAction(_, timeout) => "Wait " + IntToString(timeout) + "ms"
    case SelectOptionAction(_, selector, _) => "Select option in " + selector
    case CheckAction(_, selector) => "Check " + selector
    case UncheckAction(_, selector) => "Uncheck " + selector
    case EvaluateAction(_, _) => "Execute JavaScript"
    case WaitForManualActionAction(_, message, _, _, _, _, _) =>
      if Truthy(message) then message.value else "Wait for manual action"
    case ShowMessageAction(_, _, _, _, _, _, _) => "Execute action"
  }

  /** `action.description || getDefaultDescription(action)`. */
  function Describe(a: Action): (d: string)
    ensures d != ""
  {
    if Truthy(a.base.description) then a.base.description.value else DefaultDescription(a)
  }

  // Log lines

  function EntryLine(time: string, typeName: string, description: string): string
  {
    time + "\t\t+0ms\t\t" + PadEnd(typeName, 20) + "\t" + description
  }

  function CompletionLine(time: string, duration: int, index: int): string
  {
    time + "\t\t+" + IntToString(duration) + "ms\t\t[Completed #" + IntToString(index + 1) + "]"
  }

  function ErrorLine(time: string, typeName: string, message: string): string
  {
    time + "\t\t[ERROR]\t\t" + typeName + "\t\t" + message
  }

  /** The log header; `startedIso` is the start instant rendered as an ISO-8601 string. */
  function LogHeader(workflowName: string, startedIso: string): string
  {
    Join(["Workflow: " + workflowName, "Started at: " + startedIso, Repeat('=', 80), "",
          "TIME\t\tDURATION\tACTION\t\t\tDESCRIPTION", Repeat('-', 80), ""], "\n")
  }

  /** The log footer; `completedIso` is the finishing instant as an ISO-8601 string. */
  function LogFooter(totalDuration: int, completedIso: string): string
  {
    Join(["", Repeat('-', 80), "Total duration: " + FormatDuration(totalDuration),
          "Completed at: " + completedIso, ""], "\n")
  }

  predicate AddsCue(config: LoggerConfig, a: Action)
  {
    !IsSet(config.skipAllVtt) && !IsSet(a.base.skipVtt)
  }

  predicate AddsChapter(config: LoggerConfig, a: Action)
  {
    !IsSet(config.skipAllChapters) && !IsSet(a.base.skipChapter)
  }

  // The logger's state and its transitions

  /** Everything the logger holds, with the three output files as buffers (`None` for a file
      not written yet). */
  datatype LoggerState = LoggerState(
    startTime: int, isFirstAction: bool, config: LoggerConfig,
    logs: seq<LogEntry>, cues: seq<Cue>, chapters: seq<Chapter>,
    logText: string, vttText: Option<string>, chapterText: Option<string>)

  function Initial(workflowName: string, config: Option<LoggerConfig>, now: int, startedIso: string): LoggerState
  {
    LoggerState(now, true, config.GetOr(NoConfig), [], [], [], LogHeader(workflowName, startedIso), None, None)
  }

  /** `logAction` at clock `now`: the one-shot clock reset, then the record of the action at
      the elapsed time. */
  function LogActionStep(s: LoggerState, a: Action, now: int): LoggerState
  {
    var r := ResetClock(s, a, now);
    Record(r, a, Elapsed(r, now), FormatTime(Elapsed(r, now)), Describe(a))
  }

  /** Milliseconds since the clock origin. */
  function Elapsed(s: LoggerState, now: int): int
  {
    now - s.startTime
  }

  /** The clock origin moves to `now` at the first `goto`, and only then. */
  function ResetClock(s: LoggerState, a: Action, now: int): LoggerState
  {
    if s.isFirstAction && a.Tag() == Goto then s.(startTime := now, isFirstAction := false) else s
  }

  /** One entry and one log line for the action, and a marker and a chapter at `elapsed`
      unless they are switched off; `time` is `elapsed` as the log shows it. */
  function Record(s: LoggerState, a: Action, elapsed: int, time: string, description: string): LoggerState
  {
    s.(logs := s.logs + [LogEntry(time, 0, a.TypeName(), description)],
       logText := s.logText + (EntryLine(time, a.TypeName(), description) + "\n"),
       cues := if AddsCue(s.config, a) then s.cues + [Cue(elapsed, elapsed + CueLength, description)] else s.cues,
       chapters := if AddsChapter(s.config, a) then s.chapters + [Chapter(elapsed, description)] else s.chapters)
  }

  /** `logActionComplete` at clock `now`. */
  function CompleteStep(s: LoggerState, index: int, duration: int, now: int): LoggerState
  {
    var time := FormatTime(Elapsed(s, now));
    s.(logs := if |s.logs| > 0 then s.logs[|s.logs| - 1 := s.logs[|s.logs| - 1].(duration := duration)] else s.logs,
       logText := s.logText + (CompletionLine(time, duration, index) + "\n"))
  }

  /** `logError` at clock `now`. */
  function ErrorStep(s: LoggerState, a: Action, message: string, now: int): LoggerState
  {
    s.(logText := s.logText + (ErrorLine(FormatTime(Elapsed(s, now)), a.TypeName(), message) + "\n"))
  }

  /** `generateFiles`: both derived files are rewritten from the current cues and chapters. */
  function GenerateStep(s: LoggerState): LoggerState
  {
    s.(vttText := Some(WebVttFileAsWritten(s.cues)), chapterText := Some(ChapterFileText(s.chapters)))
  }

  /** `finalize`: the footer is appended, then both derived files are written. */
  function FinalizeStep(s: LoggerState, totalDuration: int, completedIso: string): LoggerState
  {
    GenerateStep(s.(logText := s.logText + LogFooter(totalDuration, completedIso)))
  }

  /** A call on the logger, with the clock reading it sees. */
  datatype Event =
    | Logged(action: Action, at: int)
    | Completed(index: int, duration: int, at: int)
    | Errored(action: Action, message: string, at: int)
    | Generated
    | Finalized(totalDuration: int, completedIso: string)

  function Apply(s: LoggerState, e: Event): LoggerState
  {
    match e
    case Logged(a, at) => LogActionStep(s, a, at)
    case Completed(index, duration, at) => CompleteStep(s, index, duration, at)
    case Errored(a, message, at) => ErrorStep(s, a, message, at)
    case Generated => GenerateStep(s)
    case Finalized(total, iso) => FinalizeStep(s, total, iso)
  }

  /** The state after a sequence of calls, in order. */
  function Replay(s: LoggerState, evs: seq<Event>): LoggerState
  {
    if |evs| == 0 then s else Apply(Replay(s, evs[..|evs| - 1]), evs[|evs| - 1])
  }

  // The clock origin

  /** The clock reading of the first logged `goto`, if there is one. */
  function FirstGotoTime(evs: seq<Event>): Option<int>
  {
    if |evs| == 0 then None
    else
      match FirstGotoTime(evs[..|evs| - 1])
      case Some(t) => Some(t)
      case None =>
        var e := evs[|evs| - 1];
        if e.Logged? && e.action.Tag() == Goto then Some(e.at) else None
  }

  /** The clock origin is reset exactly once, to the clock reading of the first logged `goto`
      (whatever was logged before it); a logger that has already reset never resets again. */
  lemma {:induction false} ClockResetOnce(s: LoggerState, evs: seq<Event>)
    ensures Replay(s, evs).startTime
         == if s.isFirstAction && FirstGotoTime(evs).Some? then FirstGotoTime(evs).value else s.startTime
    ensures Replay(s, evs).isFirstAction == (s.isFirstAction && FirstGotoTime(evs).None?)
  {
    if |evs| > 0 {
      ClockResetOnce(s, evs[..|evs| - 1]);
    }
  }

  // Entries, cues and chapters

  function CountLogged(evs: seq<Event>): nat
  {
    if |evs| == 0 then 0 else CountLogged(evs[..|evs| - 1]) + (if evs[|evs| - 1].Logged? then 1 else 0)
  }

  /** Each `logAction` adds exactly one entry and nothing else adds or removes one. */
  lemma {:induction false} OneEntryPerLoggedAction(s: LoggerState, evs: seq<Event>)
    ensures |Replay(s, evs).logs| == |s.logs| + CountLogged(evs)
  {
    if |evs| > 0 {
      OneEntryPerLoggedAction(s, evs[..|evs| - 1]);
    }
  }

  /** A new entry has duration 0 and carries the action's type and its description. */
  lemma LoggedEntry(s: LoggerState, a: Action, now: int)
    ensures var r := LogActionStep(s, a, now);
      |r.logs| == |s.logs| + 1 && r.logs[..|s.logs|] == s.logs
      && r.logs[|s.logs|].duration == 0 && r.logs[|s.logs|].action == a.TypeName()
      && r.logs[|s.logs|].description == Describe(a)
    ensures Truthy(a.base.description) ==> Describe(a) == a.base.description.value
    ensures !Truthy(a.base.description) ==> Describe(a) == DefaultDescription(a)
  {
    var r := LogActionStep(s, a, now);
    assert r.logs[..|s.logs|] == s.logs;
  }

  /** A marker is added exactly when neither `skipAllVtt` nor the action's `skipVtt` is set,
      and a chapter exactly when neither `skipAllChapters` nor `skipChapter` is. */
  lemma MarkersUnlessSkipped(s: LoggerState, a: Action, now: int)
    ensures var r := LogActionStep(s, a, now);
      (|r.cues| == |s.cues| + 1 <==> !IsSet(s.config.skipAllVtt) && !IsSet(a.base.skipVtt))
      && r.cues[..|s.cues|] == s.cues
      && (|r.chapters| == |s.chapters| + 1 <==> !IsSet(s.config.skipAllChapters) && !IsSet(a.base.skipChapter))
      && r.chapters[..|s.chapters|] == s.chapters
  {
    var r := LogActionStep(s, a, now);
    assert r.cues[..|s.cues|] == s.cues;
    assert r.chapters[..|s.chapters|] == s.chapters;
  }

  /** Every marker spans `CueLength` milliseconds and has a non-empty text. */
  predicate CuesWellFormed(cues: seq<Cue>)
  {
    forall i | 0 <= i < |cues| :: cues[i].endTime == cues[i].startTime + CueLength && cues[i].text != ""
  }

  /** What `logAction` does to the clock and to the marker and chapter lists. */
  lemma LoggedFields(s: LoggerState, a: Action, now: int)
    ensures var q := LogActionStep(s, a, now);
      var r := ResetClock(s, a, now);
      q.startTime == r.startTime && q.isFirstAction == r.isFirstAction && q.config == s.config
      && q.cues == (if AddsCue(s.config, a)
                    then s.cues + [Cue(Elapsed(r, now), Elapsed(r, now) + CueLength, Describe(a))] else s.cues)
      && q.chapters == (if AddsChapter(s.config, a) then s.chapters + [Chapter(Elapsed(r, now), Describe(a))] else s.chapters)
  {
  }

  /** Every call other than `logAction` leaves the clock, the markers and the chapters alone. */
  lemma OtherCallsKeepMarkers(s: LoggerState, e: Event)
    requires !e.Logged?
    ensures var q := Apply(s, e);
      q.startTime == s.startTime && q.isFirstAction == s.isFirstAction && q.config == s.config
      && q.cues == s.cues && q.chapters == s.chapters
  {
  }

  lemma CueStepWellFormed(s: LoggerState, e: Event)
    requires CuesWellFormed(s.cues)
    ensures CuesWellFormed(Apply(s, e).cues)
  {
    if e.Logged? {
      LoggedFields(s, e.action, e.at);
    } else {
      OtherCallsKeepMarkers(s, e);
    }
  }

  lemma {:induction false} CuesStayWellFormed(s: LoggerState, evs: seq<Event>)
    requires CuesWellFormed(s.cues)
    ensures CuesWellFormed(Replay(s, evs).cues)
  {
    if |evs| > 0 {
      CuesStayWellFormed(s, evs[..|evs| - 1]);
      CueStepWellFormed(Replay(s, evs[..|evs| - 1]), evs[|evs| - 1]);
    }
  }

  /** Completion only sets the last entry's duration (when there is one) and appends a line;
      an error only appends a line. Neither touches markers, chapters or the clock origin. */
  lemma CompletionAndErrorTouchOnlyTheLog(s: LoggerState, index: int, duration: int, a: Action, message: string, now: int)
    ensures var r := CompleteStep(s, index, duration, now);
      r.cues == s.cues && r.chapters == s.chapters && r.startTime == s.startTime
      && |r.logs| == |s.logs|
      && (|s.logs| > 0 ==>
            r.logs[..|s.logs| - 1] == s.logs[..|s.logs| - 1]
            && r.logs[|s.logs| - 1] == s.logs[|s.logs| - 1].(duration := duration))
      && StartsWith(r.logText, s.logText)
    ensures var r := ErrorStep(s, a, message, now);
      r.(logText := s.logText) == s && StartsWith(r.logText, s.logText)
  {
    var r := CompleteStep(s, index, duration, now);
    if |s.logs| > 0 {
      assert r.logs[..|s.logs| - 1] == s.logs[..|s.logs| - 1];
    }
    assert r.logText[..|s.logText|] == s.logText;
    var e := ErrorStep(s, a, message, now);
    assert e.logText[..|s.logText|] == s.logText;
  }

  lemma AppendKeepsPrefix(a: string, b: string)
    ensures StartsWith(a + b, a)
  {
    assert (a + b)[..|a|] == a;
  }

  lemma PrefixTransitive(a: string, b: string, c: string)
    requires StartsWith(b, a) && StartsWith(c, b)
    ensures StartsWith(c, a)
  {
    assert c[..|a|] == c[..|b|][..|a|];
  }

  /** Every call only appends to the log text. */
  lemma ApplyExtendsLog(s: LoggerState, e: Event)
    ensures StartsWith(Apply(s, e).logText, s.logText)
  {
    match e
    case Logged(a, at) =>
      var r := LogActionStep(s, a, at);
      AppendKeepsPrefix(s.logText, EntryLine(FormatTime(Elapsed(r, at)), a.TypeName(), Describe(a)) + "\n");
    case Completed(index, duration, at) =>
      AppendKeepsPrefix(s.logText, CompletionLine(FormatTime(Elapsed(s, at)), duration, index) + "\n");
    case Errored(a, message, at) =>
      AppendKeepsPrefix(s.logText, ErrorLine(FormatTime(Elapsed(s, at)), a.TypeName(), message) + "\n");
    case Generated =>
      AppendKeepsPrefix(s.logText, "");
    case Finalized(total, iso) =>
      AppendKeepsPrefix(s.logText, LogFooter(total, iso));
  }

  /** The header is written once: every later call only appends to the log text. */
  lemma {:induction false} LogOnlyGrows(s: LoggerState, evs: seq<Event>)
    ensures StartsWith(Replay(s, evs).logText, s.logText)
  {
    if |evs| == 0 {
      AppendKeepsPrefix(s.logText, "");
    } else {
      var before := Replay(s, evs[..|evs| - 1]);
      LogOnlyGrows(s, evs[..|evs| - 1]);
      ApplyExtendsLog(before, evs[|evs| - 1]);
      PrefixTransitive(s.logText, before.logText, Replay(s, evs).logText);
    }
  }

  /** The derived files depend only on the markers and chapters: writing them again gives the
      same text; the chapter file reads back as the chapters it was written from, and the marker
      file as its markers while none reaches one hour of recording. */
  lemma GeneratedFilesReadBack(s: LoggerState)
    requires OneLineTitles(s.chapters)
    ensures GenerateStep(GenerateStep(s)) == GenerateStep(s)
    ensures ReadChapterFile(GenerateStep(s).chapterText.value) == Some(Entries(s.chapters))
    ensures Writable(s.cues) && WithinOneHour(s.cues) ==> ReadWebVtt(GenerateStep(s).vttText.value) == Some(s.cues)
  {
    ChapterFileRoundTrip(s.chapters);
    if Writable(s.cues) && WithinOneHour(s.cues) {
      WebVttAsWrittenRoundTrip(s.cues);
    }
  }

  // Chapter order

  /** The clock reading an event carries, or `prev` for one that reads no clock. */
  function ClockOf(e: Event, prev: int): int
  {
    if e.Logged? || e.Completed? || e.Errored? then e.at else prev
  }

  /** The clock reading after `evs`, starting from `t0`. */
  function LastClock(t0: int, evs: seq<Event>): int
  {
    if |evs| == 0 then t0 else ClockOf(evs[|evs| - 1], LastClock(t0, evs[..|evs| - 1]))
  }

  /** The clock never runs backwards across the calls. */
  predicate Monotone(t0: int, evs: seq<Event>)
  {
    |evs| == 0
    || (Monotone(t0, evs[..|evs| - 1]) && LastClock(t0, evs[..|evs| - 1]) <= LastClock(t0, evs))
  }

  predicate ChaptersSorted(chs: seq<Chapter>)
  {
    forall i, j | 0 <= i < j < |chs| :: chs[i].time <= chs[j].time
  }

  predicate ChaptersUpTo(chs: seq<Chapter>, t: int)
  {
    forall i | 0 <= i < |chs| :: chs[i].time <= t
  }

  lemma StepKeepsOrder(r: LoggerState, e: Event, t: int)
    requires !r.isFirstAction && ChaptersSorted(r.chapters) && ChaptersUpTo(r.chapters, t - r.startTime)
    requires t <= ClockOf(e, t)
    ensures var q := Apply(r, e);
      !q.isFirstAction && q.startTime == r.startTime
      && ChaptersSorted(q.chapters) && ChaptersUpTo(q.chapters, ClockOf(e, t) - q.startTime)
  {
    if e.Logged? {
      LoggedFields(r, e.action, e.at);
    } else {
      OtherCallsKeepMarkers(r, e);
    }
  }

  /** Once the clock origin has been reset, chapters are appended in time order as long as the
      clock does not run backwards. */
  lemma {:induction false} ChaptersStayInOrder(s: LoggerState, t0: int, evs: seq<Event>)
    requires !s.isFirstAction && ChaptersSorted(s.chapters) && ChaptersUpTo(s.chapters, t0 - s.startTime)
    requires Monotone(t0, evs)
    ensures var r := Replay(s, evs);
      !r.isFirstAction && r.startTime == s.startTime
      && ChaptersSorted(r.chapters) && ChaptersUpTo(r.chapters, LastClock(t0, evs) - r.startTime)
  {
    if |evs| > 0 {
      var front := evs[..|evs| - 1];
      ChaptersStayInOrder(s, t0, front);
      StepKeepsOrder(Replay(s, front), evs[|evs| - 1], LastClock(t0, front));
    }
  }

  /** A workflow whose first logged action is a `goto` gets its chapters in time order. */
  lemma ChaptersInOrderWhenGotoFirst(s: LoggerState, url: Base, target: string, at: int, evs: seq<Event>)
    requires s.isFirstAction && s.chapters == []
    requires Monotone(at, evs)
    ensures ChaptersSorted(Replay(s, [Logged(GotoAction(url, target), at)] + evs).chapters)
  {
    var first := Logged(GotoAction(url, target), at);
    var s1 := Apply(s, first);
    assert Replay(s, [first]) == s1 by {
      assert [first][..0] == [];
    }
    ReplayAppend(s, [first], evs);
    ChaptersStayInOrder(s1, at, evs);
  }

  lemma {:induction false} ReplayAppend(s: LoggerState, p: seq<Event>, q: seq<Event>)
    ensures Replay(s, p + q) == Replay(Replay(s, p), q)
    decreases |q|
  {
    if |q| == 0 {
      assert p + q == p;
    } else {
      assert (p + q)[..|p + q| - 1] == p + q[..|q| - 1];
      ReplayAppend(s, p, q[..|q| - 1]);
    }
  }

  /** When an action precedes the first `goto`, the reset moves the origin forward and later
      chapters are stamped earlier than earlier ones: a click at 5000 ms then a goto at
      6000 ms give chapters at 5000 and 0. */
  lemma ClickBeforeGotoUnordered(name: string, iso: string, b: Base, sel: string, url: string)
    requires b == Base(None, None, None)
    ensures var r := Replay(Initial(name, None, 0, iso),
                            [Logged(ClickAction(b, sel), 5000), Logged(GotoAction(b, url), 6000)]);
      |r.chapters| == 2 && r.chapters[0].time == 5000 && r.chapters[1].time == 0
      && !ChaptersSorted(r.chapters)
  {
    var s0 := Initial(name, None, 0, iso);
    var click := Logged(ClickAction(b, sel), 5000);
    var evs := [click, Logged(GotoAction(b, url), 6000)];
    assert evs[..1] == [click];
    assert [click][..0] == [];
    var s1 := LogActionStep(s0, ClickAction(b, sel), 5000);
    assert Replay(s0, [click]) == s1;
    assert s1.isFirstAction && s1.startTime == 0 && s1.chapters == [Chapter(5000, Describe(ClickAction(b, sel)))];
    var s2 := LogActionStep(s1, GotoAction(b, url), 6000);
    assert Replay(s0, evs) == s2;
    assert s2.startTime == 6000;
    assert s2.chapters == s1.chapters + [Chapter(0, Describe(GotoAction(b, url)))];
  }

  // Descriptions used when none is given

  lemma SelectorDescriptionExamples(b: Base)
    requires b == Base(None, None, None)
    ensures Describe(FillAction(b, "#email", "test@example.com")) == "Fill #email with \"test@example.com\""
    ensures Describe(TypeAction(b, "#comment", "x")) == "Type text in #comment"
  {
  }

  lemma HoverDescriptionExamples(b: Base)
    requires b == Base(None, None, None)
    ensures Describe(HoverAction(b, ".tooltip")) == "Hover over .tooltip"
    ensures Describe(WaitForSelectorAction(b, "#loading")) == "Wait for #loading"
  {
  }

  lemma ToggleDescriptionExamples(b: Base)
    requires b == Base(None, None, None)
    ensures Describe(SelectOptionAction(b, "#country", One("US"))) == "Select option in #country"
    ensures Describe(CheckAction(b, "#agree")) == "Check #agree"
  {
  }

  lemma KeyDescriptionExamples(b: Base)
    requires b == Base(None, None, None)
    ensures Describe(UncheckAction(b, "#newsletter")) == "Uncheck #newsletter"
    ensures Describe(PressAction(b, "Enter")) == "Press Enter"
  {
  }

  lemma ScreenshotDescriptionExamples(b: Base)
    requires b == Base(None, None, None)
    ensures Describe(ScreenshotAction(b, None, Some("home"), None)) == "Take screenshot (home)"
    ensures Describe(ScreenshotAction(b, None, None, None)) == "Take screenshot"
    ensures Describe(EvaluateAction(b, "1")) == "Execute JavaScript"
  {
  }

  /** A non-empty description wins; an empty one falls back to the default. */
  lemma GivenDescriptionExamples()
    ensures Describe(ClickAction(Base(Some("Open menu"), None, None), "#m")) == "Open menu"
    ensures Describe(ClickAction(Base(Some(""), None, None), "#m")) == "Click #m"
  {
  }

  lemma WaitDescriptionExample(b: Base)
    requires b == Base(None, None, None)
    ensures Describe(WaitForTimeoutAction(b, 2000)) == "Wait 2000ms"
  {
    TwoThousandDigits();
    assert DefaultDescription(WaitForTimeoutAction(b, 2000)) == "Wait " + IntToString(2000) + "ms";
  }

  lemma TwoThousandDigits()
    ensures IntToString(2000) == "2000"
  {
    assert DigitChar(2) == '2' && DigitChar(0) == '0';
    assert NatToString(2) == "2";
    assert NatToString(20) == NatToString(2) + [DigitChar(0)] == "20";
    assert NatToString(200) == NatToString(20) + [DigitChar(0)] == "200";
    assert NatToString(2000) == NatToString(200) + [DigitChar(0)] == "2000";
  }

  // Steps with the clock reading and the computed strings as parameters, so that the methods
  // below do not have to unfold the time formatter.

  lemma LogActionStepIs(s: LoggerState, a: Action, now: int, r: LoggerState, elapsed: int, time: string, description: string)
    requires r == ResetClock(s, a, now) && elapsed == Elapsed(r, now)
    requires time == FormatTime(elapsed) && description == Describe(a)
    ensures LogActionStep(s, a, now) == Record(r, a, elapsed, time, description)
  {
  }

  lemma CompleteStepIs(s: LoggerState, index: int, duration: int, now: int, elapsed: int, time: string, line: string)
    requires elapsed == Elapsed(s, now) && time == FormatTime(elapsed)
    requires line == CompletionLine(time, duration, index)
    ensures CompleteStep(s, index, duration, now)
         == s.(logs := if |s.logs| > 0 then s.logs[|s.logs| - 1 := s.logs[|s.logs| - 1].(duration := duration)] else s.logs,
               logText := s.logText + (line + "\n"))
  {
  }

  lemma ErrorStepIs(s: LoggerState, a: Action, message: string, now: int, elapsed: int, time: string, line: string)
    requires elapsed == Elapsed(s, now) && time == FormatTime(elapsed)
    requires line == ErrorLine(time, a.TypeName(), message)
    ensures ErrorStep(s, a, message, now) == s.(logText := s.logText + (line + "\n"))
  {
  }

  // The logger object

  /** The logger as the workflow runner holds it: the clock readings it needs are parameters,
      and each file on disk is the corresponding text field. */
  class TimecodeLogger {
    const logFilePath: string
    const vttFilePath: string
    const chapterFilePath: string
    var startTime: int
    var logs: seq<LogEntry>
    var vttMarkers: seq<Cue>
    var chapters: seq<Chapter>
    var isFirstAction: bool
    var config: LoggerConfig
    var logText: string
    var vttText: Option<string>
    var chapterText: Option<string>

    function State(): LoggerState
      reads this
    {
      LoggerState(startTime, isFirstAction, config, logs, vttMarkers, chapters, logText, vttText, chapterText)
    }

    /** Starts the clock at `now`, places the three files in the output directory and writes
        the log header. */
    constructor(workflowOutputDir: string, workflowName: string, config: Option<LoggerConfig>, now: int, startedIso: string)
      ensures State() == Initial(workflowName, config, now, startedIso)
      ensures logFilePath == Paths.Join(workflowOutputDir, "timecode.txt")
      ensures vttFilePath == Paths.Join(workflowOutputDir, "markers.vtt")
      ensures chapterFilePath == Paths.Join(workflowOutputDir, "chapters.txt")
    {
      startTime := now;
      logFilePath := Paths.Join(workflowOutputDir, "timecode.txt");
      vttFilePath := Paths.Join(workflowOutputDir, "markers.vtt");
      chapterFilePath := Paths.Join(workflowOutputDir, "chapters.txt");
      logs := [];
      vttMarkers := [];
      chapters := [];
      isFirstAction := true;
      this.config := config.GetOr(NoConfig);
      logText := LogHeader(workflowName, startedIso);
      vttText := None;
      chapterText := None;
    }

    method LogAction(a: Action, index: int, now: int)
      modifies this
      ensures State() == LogActionStep(old(State()), a, now)
    {
      ghost var s0 := State();
      StartClock(a, now);
      ghost var s1 := State();
      var elapsed := now - startTime;
      var time := FormatTime(elapsed);
      var description := Describe(a);
      RecordEntry(a, elapsed, time, description);
      LogActionStepIs(s0, a, now, s1, elapsed, time, description);
    }

    /** The clock starts at the first action when it is a `goto`. */
    method StartClock(a: Action, now: int)
      modifies this
      ensures State() == ResetClock(old(State()), a, now)
    {
      if isFirstAction && a.Tag() == Goto {
        startTime := now;
        isFirstAction := false;
      }
    }

    /** The entry, the log line, the marker and the chapter of one action. */
    method RecordEntry(a: Action, elapsed: int, time: string, description: string)
      modifies this
      ensures State() == Record(old(State()), a, elapsed, time, description)
    {
      var entry := EntryLine(time, a.TypeName(), description);
      var cues := vttMarkers;
      if !IsSet(config.skipAllVtt) && !IsSet(a.base.skipVtt) {
        cues := cues + [Cue(elapsed, elapsed + CueLength, description)];
      }
      var marks := chapters;
      if !IsSet(config.skipAllChapters) && !IsSet(a.base.skipChapter) {
        marks := marks + [Chapter(elapsed, description)];
      }
      logs, logText, vttMarkers, chapters := logs + [LogEntry(time, 0, a.TypeName(), description)], logText + (entry + "\n"), cues, marks;
    }

    method LogActionComplete(a: Action, index: int, duration: int, now: int)
      modifies this
      ensures State() == CompleteStep(old(State()), index, duration, now)
    {
      ghost var s0 := State();
      var elapsed := now - startTime;
      var time := FormatTime(elapsed);
      if |logs| > 0 {
        logs := logs[|logs| - 1 := logs[|logs| - 1].(duration := duration)];
      }
      var completion := CompletionLine(time, duration, index);
      logText := logText + (completion + "\n");
      assert State() == s0.(logs := logs, logText := logText);
      CompleteStepIs(s0, index, duration, now, elapsed, time, completion);
    }

    method LogError(a: Action, index: int, message: string, now: int)
      modifies this
      ensures State() == ErrorStep(old(State()), a, message, now)
    {
      ghost var s0 := State();
      var elapsed := now - startTime;
      var time := FormatTime(elapsed);
      var errorLine := ErrorLine(time, a.TypeName(), message);
      logText := logText + (errorLine + "\n");
      ErrorStepIs(s0, a, message, now, elapsed, time, errorLine);
    }

    method Finalize(totalDuration: int, completedIso: string)
      modifies this
      ensures State() == FinalizeStep(old(State()), totalDuration, completedIso)
    {
      logText := logText + LogFooter(totalDuration, completedIso);
      GenerateWebVtt();
      GenerateChapters();
    }

    method GenerateWebVtt()
      modifies this
      ensures State() == old(State()).(vttText := Some(WebVttFileAsWritten(vttMarkers)))
    {
      var content := BuildWebVtt(vttMarkers);
      vttText := Some(content);
    }

    method GenerateChapters()
      modifies this
      ensures State() == old(State()).(chapterText := Some(ChapterFileText(chapters)))
    {
      var content := BuildChapters(chapters);
      chapterText := Some(content);
    }

    method GenerateFiles()
      modifies this
      ensures State() == GenerateStep(old(State()))
    {
      GenerateWebVtt();
      GenerateChapters();
    }
  }
}
