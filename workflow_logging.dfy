/** What a run of `executeWorkflow` promises about its timecode logger: the logger exists only
    when recording, every logger call is made while it exists, it is finalized on both exits,
    exactly once and as the very last call, and on the success path its files are written
    before the recording is converted, while after an action's failure the recording is
    converted before any chapter file exists. */
module WorkflowLogging {
  import opened Wrappers
  import opened Text
  import opened Actions
  import opened Errors
  import opened WorkflowTypes
  import opened Execution
  import opened WorkflowManager
  import opened WorkflowRuns
  import Registry
  import Log = TimecodeLogger
  import FS = FileSystem
  import Paths

  /** Calls made before the browser runs. */
  predicate BeforeBrowser(calls: seq<Call>)
  {
    forall c :: c in calls ==> c.MakeDirectory? || c.LaunchBrowser?
  }

  /** The calls of a run's setup, in its run directory `dir`. */
  function Setup(dir: string): seq<Call>
  {
    [MakeDirectory(dir), MakeDirectory(Paths.Join(dir, "screenshots")), LaunchBrowser]
  }

  /** An attempt stopped before the browser ran: by then nothing but the setup was called,
      and there is no logger and no initialized browser. */
  predicate StoppedBeforeBrowser(a: Attempt)
  {
    BeforeBrowser(a.calls) && a.thrown.Some? && !a.thrown.value.Execution?
    && !a.logging && !a.initialized && a.videoPath.None?
  }

  /** A run directory that cannot be created stops the main block at once. */
  lemma NoRunDirectoryShape(w: Workflow, o: ExecuteOptions, dir: string, world: World)
    requires FS.Single(FS.CreateDirectory, dir, world.io(MakeDirectory(dir))).Fail?
    ensures StoppedBeforeBrowser(Started(w, o, dir, world))
  {
    var e := FS.Single(FS.CreateDirectory, dir, world.io(MakeDirectory(dir))).error;
    assert Started(w, o, dir, world) == Attempt([MakeDirectory(dir)], Some(Failure.FileSystem(e)), false, false, false, dir, None);
  }

  /** So does a `screenshots` sub-directory that cannot be created. */
  lemma NoShotsDirectoryShape(w: Workflow, o: ExecuteOptions, dir: string, world: World)
    requires FS.Single(FS.CreateDirectory, dir, world.io(MakeDirectory(dir))).Pass?
    requires FS.Single(FS.CreateDirectory, Paths.Join(dir, "screenshots"),
                       world.io(MakeDirectory(Paths.Join(dir, "screenshots")))).Fail?
    ensures StoppedBeforeBrowser(Started(w, o, dir, world))
  {
    var shots := Paths.Join(dir, "screenshots");
    var e := FS.Single(FS.CreateDirectory, shots, world.io(MakeDirectory(shots))).error;
    assert Started(w, o, dir, world) == Attempt([MakeDirectory(dir), MakeDirectory(shots)], Some(Failure.FileSystem(e)), false, false, false, dir, None);
  }

  /** The main block after the configuration loaded either stops before the browser runs, or
      runs the actions after the setup calls. */
  lemma StartedShape(w: Workflow, o: ExecuteOptions, dir: string, world: World)
    ensures var a := Started(w, o, dir, world);
      StoppedBeforeBrowser(a) || (world.io(LaunchBrowser).Pass? && a == Driven(w, o, dir, Setup(dir), world))
  {
    var shots := Paths.Join(dir, "screenshots");
    if FS.Single(FS.CreateDirectory, dir, world.io(MakeDirectory(dir))).Fail? {
      NoRunDirectoryShape(w, o, dir, world);
    } else if FS.Single(FS.CreateDirectory, shots, world.io(MakeDirectory(shots))).Fail? {
      NoShotsDirectoryShape(w, o, dir, world);
    } else {
      assert Started(w, o, dir, world) == Browsing(w, o, dir, Setup(dir), world);
    }
  }

  /** A main block that throws nothing ran the actions after the setup in the run
      directory. */
  lemma CompletedShape(w: Workflow, o: ExecuteOptions, world: World)
    requires TryBlock(w, o, world).thrown.None?
    ensures MergedConfig(w, world).Ok?
    ensures var dir := RunDirectory(w.name, world); TryBlock(w, o, world) == Driven(w, o, dir, Setup(dir), world)
  {
    StartedShape(w, o, RunDirectory(w.name, world), world);
  }

  /** Every logger call among `calls` is made while the logger exists (`live`), and none
      finalizes it. */
  predicate Guarded(calls: seq<Call>, live: bool)
  {
    forall c :: c in calls ==> c.Logger? ==> live && !c.event.Finalized?
  }

  /** The logger's files are written during a transfer only when asked. */
  lemma TransferGuarded(temp: string, dir: string, webm: string, mp4: string, chapters: Option<string>,
                        generate: bool, io: Call -> Outcome<string>)
    ensures Guarded(Transfer(temp, dir, webm, mp4, chapters, generate, io).calls, generate)
  {
  }

  /** Saving the video calls the logger only when there is one. */
  lemma SaveVideoGuarded(dir: string, logging: bool, world: World)
    ensures Guarded(SaveVideo(dir, logging, world).calls, logging)
  {
    var latest := LatestVideo(world.tempVideos);
    if latest.Ok? && latest.value.Some? {
      TransferGuarded(Paths.Join(TempVideoDir, latest.value.value), dir, WebmPath(dir), Mp4Path(dir),
                      ChapterFile(dir, logging), logging, world.io);
    }
  }

  /** The end of the wrap-up adds no logger call to the saving of the video. */
  lemma ShutdownGuarded(o: ExecuteOptions, dir: string, video: Reach, world: World)
    requires Guarded(video.calls, Recording(o))
    ensures Guarded(Shutdown(o, dir, video, world).calls, Recording(o))
    ensures Shutdown(o, dir, video, world).logging == Recording(o)
  {
  }

  /** The wrap-up calls the logger only when recording. */
  lemma WrapupGuarded(o: ExecuteOptions, dir: string, world: World)
    ensures Guarded(Wrapup(o, dir, world).calls, Recording(o))
    ensures Wrapup(o, dir, world).logging == Recording(o)
  {
    var video := KeptVideo(o, dir, world);
    SaveVideoGuarded(dir, true, world);
    ShutdownGuarded(o, dir, video, world);
  }

  /** Once the browser runs, the logger is called only when recording, and never finalized. */
  lemma DrivenGuarded(w: Workflow, o: ExecuteOptions, dir: string, setup: seq<Call>, world: World)
    requires Quiet(setup)
    ensures Guarded(Driven(w, o, dir, setup, world).calls, Recording(o))
    ensures Driven(w, o, dir, setup, world).logging == Recording(o)
  {
    var n := |w.actions|;
    var round := RunRounds(w, o, dir, world);
    var logging := Recording(o);
    var P := (c: Call) => c.Logger? ==> logging && !c.event.Finalized?;
    forall j, c | 0 <= j < n && c in round(j).calls
      ensures P(c)
    {
      RoundLoggerCalls(w.actions, j, Registry.WithStandard(map[]), ActionContext(Some(dir)), logging, world);
    }
    LoopCallsAll(n, 0, round, setup, P);
    var loop := Loop(n, 0, round, setup);
    if loop.thrown.None? {
      WrapupGuarded(o, dir, world);
    }
  }

  /** The main block calls the logger only while it exists, which is only when recording. */
  lemma TryBlockGuarded(w: Workflow, o: ExecuteOptions, world: World)
    ensures Guarded(TryBlock(w, o, world).calls, TryBlock(w, o, world).logging)
    ensures TryBlock(w, o, world).logging ==> Recording(o)
  {
    if MergedConfig(w, world).Ok? {
      var dir := RunDirectory(w.name, world);
      StartedShape(w, o, dir, world);
      if !StoppedBeforeBrowser(Started(w, o, dir, world)) {
        DrivenGuarded(w, o, dir, Setup(dir), world);
      }
    }
  }

  /** A trace whose logger calls are guarded, followed by the finalization when the logger
      exists: the finalization is its last call, its only one, and there exactly when the
      logger exists. */
  lemma {:induction false} FinalizedLast(pre: seq<Call>, live: bool, e: Log.Event)
    requires Guarded(pre, live) && e.Finalized?
    ensures var t := pre + Note(live, e);
      (forall c :: c in t && c.Logger? ==> live)
      && (forall p :: 0 <= p < |t| && t[p].Logger? && t[p].event.Finalized? ==> p == |t| - 1)
      && (live <==> (0 < |t| && t[|t| - 1] == Logger(e)))
  {
    var t := pre + Note(live, e);
    forall p | 0 <= p < |pre|
      ensures t[p] == pre[p] && pre[p] in pre
    {
    }
    if !live {
      assert t == pre;
      if 0 < |t| {
        assert t[|t| - 1] in pre;
      }
    }
  }

  /** The logger of a run exists only when recording; every logger call is made while it
      exists; and it is finalized on both exits of `executeWorkflow`, with the run's
      duration, exactly once, as the run's very last call, exactly when it exists. */
  lemma FinalizedOnceAtEnd(w: Workflow, o: ExecuteOptions, world: World)
    ensures TryBlock(w, o, world).logging ==> Recording(o)
    ensures var r := RunWorkflow(w, o, world);
      forall c :: c in r.calls && c.Logger? ==> TryBlock(w, o, world).logging
    ensures var r := RunWorkflow(w, o, world);
      forall p :: 0 <= p < |r.calls| && r.calls[p].Logger? && r.calls[p].event.Finalized? ==> p == |r.calls| - 1
    ensures var r := RunWorkflow(w, o, world);
      TryBlock(w, o, world).logging <==>
        (0 < |r.calls| && r.calls[|r.calls| - 1] == Logger(Log.Finalized(RunDuration(world), world.completedIso)))
  {
    var a := TryBlock(w, o, world);
    TryBlockGuarded(w, o, world);
    var e := Log.Finalized(RunDuration(world), world.completedIso);
    if a.thrown.None? {
      FinalizedLast(a.calls, a.logging, e);
    } else {
      var caught := Caught(w.name, a, world);
      CaughtIsQuiet(w.name, a, world);
      assert Guarded(a.calls + caught.calls, a.logging);
      FinalizedLast(a.calls + caught.calls, a.logging, e);
    }
  }

  // The success path: the logger's files are written before the conversion

  /** The conversion of the success path of a run in `dir`: the copy of the recording in
      `dir` into its video, with the logger's chapter file when there is a logger. */
  function FilesConvert(dir: string, logging: bool): Call
  {
    Convert(WebmPath(dir), Mp4Path(dir), ChapterFile(dir, logging))
  }

  /** Every conversion among `calls` is `convert` and, when there is a logger, comes after
      the logger has written its files. */
  predicate ConvertsAfter(calls: seq<Call>, convert: Call, logging: bool)
  {
    forall p :: 0 <= p < |calls| && calls[p].Convert? ==>
      calls[p] == convert && (logging ==> Logger(Log.Generated) in calls[..p])
  }

  /** Every conversion among `calls` is that of the success path of a run in `dir`, and the
      logger, if any, has then already written its files. */
  predicate ConvertsAfterFiles(calls: seq<Call>, dir: string, logging: bool)
  {
    ConvertsAfter(calls, FilesConvert(dir, logging), logging)
  }

  /** Calls none of which converts a video. */
  predicate Unconverting(calls: seq<Call>)
  {
    forall c :: c in calls ==> !c.Convert?
  }

  lemma UnconvertingConvertsAfter(calls: seq<Call>, convert: Call, logging: bool)
    requires Unconverting(calls)
    ensures ConvertsAfter(calls, convert, logging)
  {
    forall p | 0 <= p < |calls|
      ensures !calls[p].Convert?
    {
      assert calls[p] in calls;
    }
  }

  /** The property is kept by concatenation. */
  lemma {:induction false} ConvertsAfterAppend(x: seq<Call>, y: seq<Call>, convert: Call, logging: bool)
    requires ConvertsAfter(x, convert, logging) && ConvertsAfter(y, convert, logging)
    ensures ConvertsAfter(x + y, convert, logging)
  {
    var t := x + y;
    forall p | |x| <= p < |t| && t[p].Convert?
      ensures t[p] == convert
      ensures logging ==> Logger(Log.Generated) in t[..p]
    {
      var q := p - |x|;
      assert t[p] == y[q];
      if logging {
        assert Logger(Log.Generated) in y[..q];
        assert t[..p] == x + y[..q];
      }
    }
    forall p | 0 <= p < |x| && t[p].Convert?
      ensures t[p] == convert
      ensures logging ==> Logger(Log.Generated) in t[..p]
    {
      assert t[p] == x[p];
      assert t[..p] == x[..p];
    }
  }

  /** The conversion of a recording into `dir` comes right after the logger writes its
      files, if there is a logger. */
  lemma ConversionConvertsAfterFiles(temp: string, dir: string, logging: bool, io: Call -> Outcome<string>)
    ensures ConvertsAfterFiles(Conversion(temp, WebmPath(dir), Mp4Path(dir), ChapterFile(dir, logging), logging, io).calls,
                               dir, logging)
  {
    ConversionShape(temp, WebmPath(dir), Mp4Path(dir), ChapterFile(dir, logging), logging, io);
    GeneratedThenConverted(Conversion(temp, WebmPath(dir), Mp4Path(dir), ChapterFile(dir, logging), logging, io).calls,
                           FilesConvert(dir, logging), logging);
  }

  /** The calls of a conversion: the files, if generated, then the conversion and the deletion of
      the temporary recording. */
  lemma ConversionShape(temp: string, webm: string, mp4: string, chapters: Option<string>, generate: bool,
                        io: Call -> Outcome<string>)
    ensures var calls := Conversion(temp, webm, mp4, chapters, generate, io).calls;
      var k := if generate then 1 else 0;
      |calls| == k + 2 && calls[k] == Convert(webm, mp4, chapters) && calls[k + 1] == DeleteFile(temp)
      && (generate ==> calls[0] == Logger(Log.Generated))
  {
  }

  lemma GeneratedThenConverted(calls: seq<Call>, convert: Call, logging: bool)
    requires var k := if logging then 1 else 0;
      |calls| == k + 2 && calls[k] == convert
      && !calls[k + 1].Convert? && (logging ==> calls[0] == Logger(Log.Generated))
    ensures ConvertsAfter(calls, convert, logging)
  {
    var k := if logging then 1 else 0;
    forall p | 0 <= p < |calls| && calls[p].Convert?
      ensures calls[p] == calls[k] && (logging ==> Logger(Log.Generated) in calls[..p])
    {
      assert p == k;
      if logging {
        assert calls[..p][0] == calls[0];
      }
    }
  }

  /** So does the transfer of a recording into `dir`. */
  lemma TransferConvertsAfterFiles(temp: string, dir: string, logging: bool, io: Call -> Outcome<string>)
    ensures ConvertsAfterFiles(Transfer(temp, dir, WebmPath(dir), Mp4Path(dir), ChapterFile(dir, logging), logging, io).calls,
                               dir, logging)
  {
    var webm := WebmPath(dir);
    var copyCalls := if io(MakeDirectory(dir)).Pass? then [MakeDirectory(dir), CopyVideo(temp, webm)] else [MakeDirectory(dir)];
    UnconvertingConvertsAfter(copyCalls, FilesConvert(dir, logging), logging);
    if FS.CopyFile(temp, webm, dir, io(MakeDirectory(dir)), io(CopyVideo(temp, webm))).Pass? {
      ConversionConvertsAfterFiles(temp, dir, logging, io);
      ConvertsAfterAppend(copyCalls, Conversion(temp, webm, Mp4Path(dir), ChapterFile(dir, logging), logging, io).calls, FilesConvert(dir, logging), logging);
    }
  }

  /** So does saving the recording of a run in `dir`. */
  lemma SaveVideoConvertsAfterFiles(dir: string, logging: bool, world: World)
    ensures ConvertsAfterFiles(SaveVideo(dir, logging, world).calls, dir, logging)
  {
    var latest := LatestVideo(world.tempVideos);
    UnconvertingConvertsAfter([ListVideos], FilesConvert(dir, logging), logging);
    if latest.Ok? && latest.value.Some? {
      var temp := Paths.Join(TempVideoDir, latest.value.value);
      TransferConvertsAfterFiles(temp, dir, logging, world.io);
      ConvertsAfterAppend([ListVideos], Transfer(temp, dir, WebmPath(dir), Mp4Path(dir), ChapterFile(dir, logging), logging, world.io).calls, FilesConvert(dir, logging), logging);
    }
  }

  /** The end of the wrap-up converts nothing beyond the saving of the video. */
  lemma ShutdownConvertsAfterFiles(o: ExecuteOptions, dir: string, video: Reach, world: World)
    requires ConvertsAfterFiles(video.calls, dir, Recording(o))
    ensures ConvertsAfterFiles(Shutdown(o, dir, video, world).calls, dir, Recording(o))
  {
    ShutdownConvertsAfter(o, dir, video, world, FilesConvert(dir, Recording(o)));
  }

  lemma ShutdownConvertsAfter(o: ExecuteOptions, dir: string, video: Reach, world: World, convert: Call)
    requires ConvertsAfter(video.calls, convert, Recording(o))
    ensures ConvertsAfter(Shutdown(o, dir, video, world).calls, convert, Recording(o))
  {
    var logging := Recording(o);
    var session := if Truthy(o.saveSession) then [SaveSession(o.saveSession.value)] else [];
    UnconvertingConvertsAfter([ClosePage], convert, logging);
    UnconvertingConvertsAfter(session, convert, logging);
    UnconvertingConvertsAfter(session + [CloseBrowser], convert, logging);
    ConvertsAfterAppend([ClosePage], video.calls, convert, logging);
    ConvertsAfterAppend([ClosePage] + video.calls, session, convert, logging);
    ConvertsAfterAppend([ClosePage] + video.calls, session + [CloseBrowser], convert, logging);
    assert [ClosePage] + video.calls + session + [CloseBrowser] == ([ClosePage] + video.calls) + (session + [CloseBrowser]);
  }

  /** The wrap-up of a run in `dir` converts its recording only after the logger's files are
      written. */
  lemma WrapupConvertsAfterFiles(o: ExecuteOptions, dir: string, world: World)
    ensures ConvertsAfterFiles(Wrapup(o, dir, world).calls, dir, Recording(o))
  {
    var video := KeptVideo(o, dir, world);
    SaveVideoConvertsAfterFiles(dir, true, world);
    UnconvertingConvertsAfter([], FilesConvert(dir, Recording(o)), Recording(o));
    UnconvertingConvertsAfter([ClosePage], FilesConvert(dir, Recording(o)), Recording(o));
    ShutdownConvertsAfterFiles(o, dir, video, world);
  }

  /** A call that writes the logger's cue and chapter files: `generateFiles`, or `finalize`,
      which ends with it. */
  predicate WritesChapters(c: Call)
  {
    c.Logger? && (c.event.Generated? || c.event.Finalized?)
  }

  /** The action loop converts nothing and writes no chapter file. */
  lemma LoopUnconverting(w: Workflow, o: ExecuteOptions, dir: string, setup: seq<Call>, world: World)
    requires Unconverting(setup) && forall c :: c in setup ==> !WritesChapters(c)
    ensures Unconverting(Loop(|w.actions|, 0, RunRounds(w, o, dir, world), setup).calls)
    ensures forall c :: c in Loop(|w.actions|, 0, RunRounds(w, o, dir, world), setup).calls ==> !WritesChapters(c)
  {
    var round := RunRounds(w, o, dir, world);
    var P := (c: Call) => !c.Convert? && !WritesChapters(c);
    forall j, c | 0 <= j < |w.actions| && c in round(j).calls
      ensures P(c)
    {
      RoundLoggerCalls(w.actions, j, Registry.WithStandard(map[]), ActionContext(Some(dir)), Recording(o), world);
    }
    LoopCallsAll(|w.actions|, 0, round, setup, P);
  }

  /** Once the browser runs, the recording is converted only after the logger's files are
      written. */
  lemma DrivenConvertsAfterFiles(w: Workflow, o: ExecuteOptions, dir: string, setup: seq<Call>, world: World)
    requires Unconverting(setup) && forall c :: c in setup ==> !WritesChapters(c)
    ensures ConvertsAfterFiles(Driven(w, o, dir, setup, world).calls, dir, Recording(o))
  {
    var loop := Loop(|w.actions|, 0, RunRounds(w, o, dir, world), setup);
    LoopUnconverting(w, o, dir, setup, world);
    UnconvertingConvertsAfter(loop.calls, FilesConvert(dir, Recording(o)), Recording(o));
    if loop.thrown.None? {
      WrapupConvertsAfterFiles(o, dir, world);
      ConvertsAfterAppend(loop.calls, Wrapup(o, dir, world).calls, FilesConvert(dir, Recording(o)), Recording(o));
    }
  }

  /** A main block that throws nothing converts its recording only after the logger's files
      are written. */
  lemma CompletedConvertsAfterFiles(w: Workflow, o: ExecuteOptions, world: World, finish: seq<Call>)
    requires TryBlock(w, o, world).thrown.None?
    requires Unconverting(finish)
    ensures ConvertsAfterFiles(TryBlock(w, o, world).calls + finish, RunDirectory(w.name, world), Recording(o))
  {
    var dir := RunDirectory(w.name, world);
    CompletedShape(w, o, world);
    DrivenConvertsAfterFiles(w, o, dir, Setup(dir), world);
    UnconvertingConvertsAfter(finish, FilesConvert(dir, Recording(o)), Recording(o));
    ConvertsAfterAppend(TryBlock(w, o, world).calls, finish, FilesConvert(dir, Recording(o)), Recording(o));
  }

  /** A successful run converts its recording only after the logger, if there is one, has
      written its cue and chapter files, and hands the converter the chapter file of its run
      directory. */
  lemma SuccessConvertsAfterFiles(w: Workflow, o: ExecuteOptions, world: World)
    requires RunWorkflow(w, o, world).result.success
    ensures ConvertsAfterFiles(RunWorkflow(w, o, world).calls, RunDirectory(w.name, world), Recording(o))
  {
    SuccessTrace(w, o, world);
    var a := TryBlock(w, o, world);
    CompletedConvertsAfterFiles(w, o, world, Note(a.logging, Log.Finalized(RunDuration(world), world.completedIso)));
  }

  // The failure path: the recording is converted before any chapter file exists

  /** Every conversion among `calls` is handed the chapter file `chapters`, and comes before
      any call that writes the logger's chapter file. */
  predicate ConvertsBeforeChapters(calls: seq<Call>, chapters: Option<string>)
  {
    forall p :: 0 <= p < |calls| && calls[p].Convert? ==>
      calls[p].chapters == chapters && forall q :: 0 <= q < p ==> !WritesChapters(calls[q])
  }

  /** Calls of which none converts with another chapter file than `chapters`, and none
      writes the logger's files. */
  predicate Unwriting(calls: seq<Call>, chapters: Option<string>)
  {
    forall c :: c in calls ==> !WritesChapters(c) && (c.Convert? ==> c.chapters == chapters)
  }

  /** Calls that write no chapter file, then calls that convert nothing, convert before
      writing the chapter file. */
  lemma UnwritingThenUnconverting(x: seq<Call>, y: seq<Call>, chapters: Option<string>)
    requires Unwriting(x, chapters) && Unconverting(y)
    ensures ConvertsBeforeChapters(x + y, chapters)
  {
    var t := x + y;
    forall p | |x| <= p < |t|
      ensures !t[p].Convert?
    {
      assert t[p] == y[p - |x|] && y[p - |x|] in y;
    }
    forall p | 0 <= p < |x| && t[p].Convert?
      ensures t[p].chapters == chapters && forall q :: 0 <= q < p ==> !WritesChapters(t[q])
    {
      assert t[p] == x[p] && x[p] in x;
      forall q | 0 <= q < p
        ensures !WritesChapters(t[q])
      {
        assert t[q] == x[q] && x[q] in x;
      }
    }
  }

  /** A transfer hands the converter the chapter file it is given, and without `generate`
      writes no logger file. */
  lemma TransferUnwriting(temp: string, dir: string, webm: string, mp4: string, chapters: Option<string>,
                          io: Call -> Outcome<string>)
    ensures Unwriting(Transfer(temp, dir, webm, mp4, chapters, false, io).calls, chapters)
  {
  }

  /** The `catch` block writes no logger file and hands the converter the chapter file of the
      logger of the failed run, if there is one. */
  lemma CaughtUnwriting(name: string, a: Attempt, world: World)
    ensures Unwriting(Caught(name, a, world).calls, ChapterFile(a.dir, a.logging))
  {
    if a.initialized && world.recovery(ClosePage).Pass? {
      var latest := LatestVideo(world.salvageVideos);
      if latest.Ok? && latest.value.Some? {
        var target := FS.GetWorkflowOutputDirectory(name, None, world.salvageStamp);
        TransferUnwriting(Paths.Join(TempVideoDir, latest.value.value), target, WebmPath(target), Mp4Path(target),
                          ChapterFile(a.dir, a.logging), world.recovery);
      }
    }
  }

  /** A main block that throws an action's error stopped in the action loop, in the run
      directory, with the logger when recording. */
  lemma ActionFailedShape(w: Workflow, o: ExecuteOptions, world: World)
    requires TryBlock(w, o, world).thrown.Some? && TryBlock(w, o, world).thrown.value.Execution?
    ensures var dir := RunDirectory(w.name, world); var a := TryBlock(w, o, world);
      a.dir == dir && a.logging == Recording(o) && a.videoPath.None?
      && a.calls == Loop(|w.actions|, 0, RunRounds(w, o, dir, world), Setup(dir)).calls
  {
    var dir := RunDirectory(w.name, world);
    StartedShape(w, o, dir, world);
    WrapupThrowsNoExecution(o, dir, world);
  }

  /** After an action's failure, the main block and the `catch` block write no chapter file,
      and the salvage converts with the chapter file of the run directory's logger. */
  lemma ActionFailedUnwriting(w: Workflow, o: ExecuteOptions, world: World)
    requires TryBlock(w, o, world).thrown.Some? && TryBlock(w, o, world).thrown.value.Execution?
    ensures var a := TryBlock(w, o, world);
      Unwriting(a.calls + Caught(w.name, a, world).calls, ChapterFile(RunDirectory(w.name, world), Recording(o)))
  {
    var dir := RunDirectory(w.name, world);
    var a := TryBlock(w, o, world);
    ActionFailedShape(w, o, world);
    LoopUnconverting(w, o, dir, Setup(dir), world);
    CaughtUnwriting(w.name, a, world);
    UnconvertingThenUnwriting(a.calls, Caught(w.name, a, world).calls, ChapterFile(dir, Recording(o)));
  }

  /** Calls that neither convert nor write the chapter file, then calls that write no chapter
      file and convert with `chapters`, together write none and convert with `chapters`. */
  lemma UnconvertingThenUnwriting(x: seq<Call>, y: seq<Call>, chapters: Option<string>)
    requires Unconverting(x) && (forall c :: c in x ==> !WritesChapters(c)) && Unwriting(y, chapters)
    ensures Unwriting(x + y, chapters)
  {
  }

  /** The quirk of the failure path: after an action fails, the logger's files are never
      generated; the salvaged recording is converted with the chapter file of the run's
      logger, if recording, before anything has written that file, since only the
      finalization, the run's last call, writes it. */
  lemma SalvageConvertsBeforeChapters(w: Workflow, o: ExecuteOptions, world: World)
    requires RunWorkflow(w, o, world).result.error.Some? && RunWorkflow(w, o, world).result.error.value.Execution?
    ensures ConvertsBeforeChapters(RunWorkflow(w, o, world).calls, ChapterFile(RunDirectory(w.name, world), Recording(o)))
    ensures Logger(Log.Generated) !in RunWorkflow(w, o, world).calls
  {
    FailureTrace(w, o, world);
    var a := TryBlock(w, o, world);
    var pre := a.calls + Caught(w.name, a, world).calls;
    var finish := Note(a.logging, Log.Finalized(RunDuration(world), world.completedIso));
    ActionFailedUnwriting(w, o, world);
    UnwritingThenUnconverting(pre, finish, ChapterFile(RunDirectory(w.name, world), Recording(o)));
    assert Logger(Log.Generated) !in pre;
  }

  /** Every conversion among `calls` is handed the chapter file `chapters` and, when there is a
      logger, comes after the logger has written its files. */
  predicate ConvertsAfterGenerated(calls: seq<Call>, chapters: Option<string>, logging: bool)
  {
    forall p :: 0 <= p < |calls| && calls[p].Convert? ==>
      calls[p].chapters == chapters && (logging ==> Logger(Log.Generated) in calls[..p])
  }

  /** As written, the salvage never has the logger write its files, and hands the converter the
      chapter file of the run directory; so with a logger, a salvage that converts does so
      before that file is written. */
  lemma SalvageConvertsUngenerated(name: string, dir: string, logging: bool, world: World)
    ensures Logger(Log.Generated) !in Salvage(name, dir, logging, world).calls
    ensures forall c :: c in Salvage(name, dir, logging, world).calls && c.Convert? ==> c.chapters == ChapterFile(dir, logging)
    ensures logging && (exists c :: c in Salvage(name, dir, logging, world).calls && c.Convert?) ==>
      !ConvertsAfterGenerated(Salvage(name, dir, logging, world).calls, ChapterFile(dir, logging), logging)
  {
    var calls := Salvage(name, dir, logging, world).calls;
    SalvageCalls(name, dir, logging, world);
    if logging && exists c :: c in calls && c.Convert? {
      UngeneratedConversion(calls, ChapterFile(dir, logging));
    }
  }

  lemma SalvageCalls(name: string, dir: string, logging: bool, world: World)
    ensures Logger(Log.Generated) !in Salvage(name, dir, logging, world).calls
    ensures forall c :: c in Salvage(name, dir, logging, world).calls && c.Convert? ==> c.chapters == ChapterFile(dir, logging)
  {
    var io := world.recovery;
    var latest := LatestVideo(world.salvageVideos);
    if io(ClosePage).Pass? && latest.Ok? && latest.value.Some? {
      var target := FS.GetWorkflowOutputDirectory(name, None, world.salvageStamp);
      if io(MakeDirectory(target)).Pass? {
        var temp := Paths.Join(TempVideoDir, latest.value.value);
        TransferChapters(temp, target, WebmPath(target), Mp4Path(target), ChapterFile(dir, logging), false, io);
      }
    }
  }

  /** Calls that convert but never have the logger write its files do not convert after the
      files are written. */
  lemma UngeneratedConversion(calls: seq<Call>, chapters: Option<string>)
    requires Logger(Log.Generated) !in calls && exists c :: c in calls && c.Convert?
    ensures !ConvertsAfterGenerated(calls, chapters, true)
  {
    var c :| c in calls && c.Convert?;
    var p :| 0 <= p < |calls| && calls[p] == c;
    forall q | 0 <= q < p
      ensures calls[..p][q] != Logger(Log.Generated)
    {
      assert calls[..p][q] == calls[q] && calls[q] in calls;
    }
  }

  /** The intended salvage converts only after the logger, if any, has written its files, and
      hands the converter that logger's chapter file. */
  lemma SalvageWithChaptersGeneratesFirst(name: string, dir: string, logging: bool, world: World)
    ensures ConvertsAfterGenerated(SalvageWithChapters(name, dir, logging, world).calls, ChapterFile(dir, logging), logging)
  {
    var io := world.recovery;
    var latest := LatestVideo(world.salvageVideos);
    if io(ClosePage).Pass? && latest.Ok? && latest.value.Some? {
      var target := FS.GetWorkflowOutputDirectory(name, None, world.salvageStamp);
      if io(MakeDirectory(target)).Pass? {
        var temp := Paths.Join(TempVideoDir, latest.value.value);
        var t := Transfer(temp, target, WebmPath(target), Mp4Path(target), ChapterFile(dir, logging), logging, io);
        TransferGeneratesFirst(temp, target, WebmPath(target), Mp4Path(target), ChapterFile(dir, logging), logging, io);
        GeneratedAfterUnconverting([ClosePage, ListVideos, MakeDirectory(target)], t.calls, ChapterFile(dir, logging), logging);
      }
    }
  }

  /** The calls of a transfer: no logger call other than the files' generation when asked
      for, and every conversion handed `chapters`. */
  lemma TransferChapters(temp: string, dir: string, webm: string, mp4: string, chapters: Option<string>, generate: bool,
                         io: Call -> Outcome<string>)
    ensures generate == false ==> Logger(Log.Generated) !in Transfer(temp, dir, webm, mp4, chapters, generate, io).calls
    ensures forall c :: c in Transfer(temp, dir, webm, mp4, chapters, generate, io).calls && c.Convert? ==> c.chapters == chapters
  {
    ConversionShape(temp, webm, mp4, chapters, generate, io);
  }

  /** A transfer asked to generate the files converts only after generating them. */
  lemma TransferGeneratesFirst(temp: string, dir: string, webm: string, mp4: string, chapters: Option<string>, generate: bool,
                               io: Call -> Outcome<string>)
    ensures ConvertsAfterGenerated(Transfer(temp, dir, webm, mp4, chapters, generate, io).calls, chapters, generate)
  {
    var copyCalls := if io(MakeDirectory(dir)).Pass? then [MakeDirectory(dir), CopyVideo(temp, webm)] else [MakeDirectory(dir)];
    if FS.CopyFile(temp, webm, dir, io(MakeDirectory(dir)), io(CopyVideo(temp, webm))).Pass? {
      var conversion := Conversion(temp, webm, mp4, chapters, generate, io).calls;
      ConversionShape(temp, webm, mp4, chapters, generate, io);
      GeneratedThenConverting(conversion, chapters, generate);
      GeneratedAfterUnconverting(copyCalls, conversion, chapters, generate);
    } else {
      assert forall p :: 0 <= p < |copyCalls| ==> !copyCalls[p].Convert?;
    }
  }

  lemma GeneratedThenConverting(calls: seq<Call>, chapters: Option<string>, logging: bool)
    requires var k := if logging then 1 else 0;
      |calls| == k + 2 && calls[k].Convert? && calls[k].chapters == chapters
      && !calls[k + 1].Convert? && (logging ==> calls[0] == Logger(Log.Generated))
    ensures ConvertsAfterGenerated(calls, chapters, logging)
  {
    var k := if logging then 1 else 0;
    forall p | 0 <= p < |calls| && calls[p].Convert?
      ensures calls[p] == calls[k] && (logging ==> Logger(Log.Generated) in calls[..p])
    {
      assert p == k;
      if logging {
        assert calls[..p][0] == calls[0];
      }
    }
  }

  /** Calls that convert nothing keep the property of the calls after them. */
  lemma GeneratedAfterUnconverting(x: seq<Call>, y: seq<Call>, chapters: Option<string>, logging: bool)
    requires Unconverting(x) && ConvertsAfterGenerated(y, chapters, logging)
    ensures ConvertsAfterGenerated(x + y, chapters, logging)
  {
    var t := x + y;
    forall p | 0 <= p < |x|
      ensures !t[p].Convert?
    {
      assert t[p] == x[p] && x[p] in x;
    }
    forall p | |x| <= p < |t| && t[p].Convert?
      ensures t[p].chapters == chapters && (logging ==> Logger(Log.Generated) in t[..p])
    {
      var q := p - |x|;
      assert t[p] == y[q];
      if logging {
        assert t[..p] == x + y[..q];
      }
    }
  }

  /** The salvage copies the recording into a second run directory, named with the time of
      the recovery: when that timestamp differs from the run's, the salvaged video does not
      sit beside the chapter file it is converted with. */
  lemma SalvageDirectoryDiffers(name: string, world: World)
    requires world.stamp != world.salvageStamp
    ensures FS.GetWorkflowOutputDirectory(name, None, world.salvageStamp) != RunDirectory(name, world)
  {
    var prefix := "output/" + name + "_";
    FS.WorkflowOutputDirectoryShape(name, None, world.salvageStamp);
    FS.WorkflowOutputDirectoryShape(name, Some(world.stamp), world.stamp);
    assert FS.ChosenTimestamp(Some(world.stamp), world.stamp) == world.stamp;
    var salvaged, run := prefix + world.salvageStamp, prefix + world.stamp;
    assert salvaged[|prefix|..] == world.salvageStamp && run[|prefix|..] == world.stamp;
  }

  // The result

  /** A video path, if set, is the copy of the recording or the converted video in `dir`. */
  predicate VideoIn(video: Option<string>, dir: string)
  {
    video.Some? ==> video.value == WebmPath(dir) || video.value == Mp4Path(dir)
  }

  lemma TransferVideo(temp: string, dir: string, chapters: Option<string>, generate: bool, io: Call -> Outcome<string>)
    ensures VideoIn(Transfer(temp, dir, WebmPath(dir), Mp4Path(dir), chapters, generate, io).videoPath, dir)
  {
  }

  /** Saving the recording sets the video path to a video in the run directory. */
  lemma SaveVideoVideo(dir: string, logging: bool, world: World)
    ensures VideoIn(SaveVideo(dir, logging, world).videoPath, dir)
  {
    var latest := LatestVideo(world.tempVideos);
    if latest.Ok? && latest.value.Some? {
      TransferVideo(Paths.Join(TempVideoDir, latest.value.value), dir, ChapterFile(dir, logging), logging, world.io);
    }
  }

  /** So does the wrap-up. */
  lemma WrapupVideo(o: ExecuteOptions, dir: string, world: World)
    ensures VideoIn(Wrapup(o, dir, world).videoPath, dir)
    ensures Wrapup(o, dir, world).dir == dir
  {
    SaveVideoVideo(dir, true, world);
    ShutdownKeeps(o, dir, KeptVideo(o, dir, world), world);
  }

  /** A main block that throws nothing leaves the video path at a video in the run
      directory. */
  lemma CompletedVideo(w: Workflow, o: ExecuteOptions, world: World)
    requires TryBlock(w, o, world).thrown.None?
    ensures VideoIn(TryBlock(w, o, world).videoPath, RunDirectory(w.name, world))
    ensures TryBlock(w, o, world).dir == RunDirectory(w.name, world)
  {
    var dir := RunDirectory(w.name, world);
    CompletedShape(w, o, world);
    WrapupVideo(o, dir, world);
  }

  /** The salvage sets the video path to a video in the salvage directory. */
  lemma CaughtVideo(name: string, a: Attempt, world: World)
    requires a.videoPath.None?
    ensures VideoIn(Caught(name, a, world).videoPath, FS.GetWorkflowOutputDirectory(name, None, world.salvageStamp))
  {
    var target := FS.GetWorkflowOutputDirectory(name, None, world.salvageStamp);
    if a.initialized && world.recovery(ClosePage).Pass? {
      var latest := LatestVideo(world.salvageVideos);
      if latest.Ok? && latest.value.Some? {
        TransferVideo(Paths.Join(TempVideoDir, latest.value.value), target, ChapterFile(a.dir, a.logging), false, world.recovery);
      }
    }
  }

  /** What `executeWorkflow` returns: success exactly when the main block threw nothing, with
      the run directory as output directory, no error and the video saved there, if any; on
      failure no output directory and the error the main block threw, with the video
      salvaged into the second run directory after an action's failure, if any; and in
      both cases the measured duration. */
  lemma ResultShape(w: Workflow, o: ExecuteOptions, world: World)
    ensures var r := RunWorkflow(w, o, world).result;
      (r.success <==> TryBlock(w, o, world).thrown.None?) && r.duration == Some(RunDuration(world))
    ensures var r := RunWorkflow(w, o, world).result;
      r.success ==> r.outputDirectory == Some(RunDirectory(w.name, world)) && r.error.None?
                    && VideoIn(r.videoPath, RunDirectory(w.name, world))
    ensures var r := RunWorkflow(w, o, world).result;
      !r.success ==> r.outputDirectory.None? && r.error == TryBlock(w, o, world).thrown
    ensures var r := RunWorkflow(w, o, world).result;
      r.error.Some? && r.error.value.Execution? ==>
        VideoIn(r.videoPath, FS.GetWorkflowOutputDirectory(w.name, None, world.salvageStamp))
  {
    var a := TryBlock(w, o, world);
    if a.thrown.None? {
      assert RunWorkflow(w, o, world).result == ExecutionResult(true, a.videoPath, Some(a.dir), None, Some(RunDuration(world)));
      CompletedVideo(w, o, world);
    } else {
      var caught := Caught(w.name, a, world);
      assert RunWorkflow(w, o, world).result == ExecutionResult(false, caught.videoPath, None, a.thrown, Some(RunDuration(world)));
      if a.thrown.value.Execution? {
        ActionFailedShape(w, o, world);
        CaughtVideo(w.name, a, world);
      }
    }
  }
}
