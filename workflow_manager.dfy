/** The workflow manager: loading and listing workflows, and running one. A run loads the
    configuration, creates the run's output directory, launches the browser, runs the actions
    one by one with the timecode logger watching, saves the recorded video and closes
    everything, on success and on failure alike.

    The browser, the video converter and the disk are outside the model: a run is given a
    `World` that answers each external call, and it returns the calls it made, in order. The
    timecode logger is a real object here; its final state is the logger model replayed over
    the logger calls of that trace. */
module WorkflowManager {
  import opened Wrappers
  import opened Text
  import opened Actions
  import opened ConfigTypes
  import opened Errors
  import opened WorkflowTypes
  import opened Execution
  import Registry
  import Log = TimecodeLogger
  import ConfigManager
  import FS = FileSystem
  import Paths
  import JsonValues

  /** Where the browser leaves its recordings. */
  const TempVideoDir: string := "output/temp-videos"

  /** The pause after each action, in milliseconds. */
  const PauseAfterAction: int := 500

  /** The one page of a run. */
  const ThePage: Page := Page(0)

  /** The clock readings of a run, named by what takes them. */
  datatype Moment =
    | RunStart | LoggerStart | RunEnd
    | ActionLogged(i: nat) | ActionStart(i: nat) | ActionEnd(i: nat)
    | CompletionLogged(i: nat) | ErrorLogged(i: nat)

  /** The external calls of a run, as a trace records them. */
  datatype Call =
    | MakeDirectory(path: string)
    | LaunchBrowser
    /** A call on the timecode logger. */
    | Logger(event: Log.Event)
    /** `actionExecutor.executeAction(action, page, index)`. */
    | Executed(index: nat)
    /** `page.waitForTimeout(ms)` after action `after`. */
    | Pause(after: nat, ms: int)
    | ClosePage
    /** `listFiles('output/temp-videos', /\.webm$/)`. */
    | ListVideos
    | CopyVideo(source: string, destination: string)
    /** `VideoConverter.convertAndCleanup(webm, mp4, chapters)`. */
    | Convert(webm: string, mp4: string, chapters: Option<string>)
    | DeleteFile(path: string)
    | SaveSession(session: string)
    | CloseBrowser

  /** Everything a run learns from outside: the three configuration files, the two
      timestamps the run may take (`stamp` at the start, `salvageStamp` in the recovery of a
      failed run), the two ISO dates the logger writes, the clock, the answer to every
      external call made in the main block (`io`) and in the recovery after a failure
      (`recovery`), what listing the recordings directory gives in each, and the action
      handlers' behaviour. */
  datatype World = World(
    userConfig: ConfigManager.ConfigFile, shippedConfig: ConfigManager.ConfigFile,
    workflowConfig: ConfigManager.ConfigFile,
    stamp: string, salvageStamp: string, startedIso: string, completedIso: string,
    clock: Moment -> int,
    io: Call -> Outcome<string>,
    recovery: Call -> Outcome<string>,
    tempVideos: Result<seq<FS.DirEntry>, string>,
    salvageVideos: Result<seq<FS.DirEntry>, string>,
    run: Run)

  /** `options?.record !== false`: recording, and the logger, are on unless switched off. */
  predicate Recording(o: ExecuteOptions)
  {
    o.record != Some(false)
  }

  /** A logger call, made only when the logger exists. */
  function Note(logging: bool, e: Log.Event): seq<Call>
  {
    if logging then [Logger(e)] else []
  }

  /** The calls on the logger, in order. */
  function LoggerEvents(calls: seq<Call>): seq<Log.Event>
  {
    if |calls| == 0 then []
    else LoggerEvents(calls[..|calls| - 1]) + (if calls[|calls| - 1].Logger? then [calls[|calls| - 1].event] else [])
  }

  lemma {:induction false} LoggerEventsAppend(p: seq<Call>, q: seq<Call>)
    ensures LoggerEvents(p + q) == LoggerEvents(p) + LoggerEvents(q)
    decreases |q|
  {
    if |q| == 0 {
      assert p + q == p;
    } else {
      var q' := q[..|q| - 1];
      assert (p + q)[..|p + q| - 1] == p + q';
      LoggerEventsAppend(p, q');
    }
  }

  // The action loop

  /** How a stretch of the run ended: the calls it made, and what it threw, if anything. */
  datatype Stop = Stop(calls: seq<Call>, thrown: Option<Failure>)

  /** The calls `prefix`, then the stretch `s`. */
  function After(prefix: seq<Call>, s: Stop): Stop
  {
    Stop(prefix + s.calls, s.thrown)
  }

  /** The start of round `i`: the action is logged, then executed. */
  function Opening(a: Action, i: nat, logging: bool, world: World): seq<Call>
  {
    Note(logging, Log.Logged(a, world.clock(ActionLogged(i)))) + [Executed(i)]
  }

  /** The measured duration of action `i`: the clock after it less the clock at its start. */
  function ActionDuration(world: World, i: nat, actionStart: int): int
  {
    world.clock(ActionEnd(i)) - actionStart
  }

  /** The end of round `i` once the action's outcome `r` is known: the error is logged and
      thrown; or the completion is logged with the duration measured from `actionStart`, and
      the pause follows, which throws when it fails. */
  function Closing(a: Action, i: nat, r: Outcome<ExecutionError>, actionStart: int, logging: bool, world: World): Stop
  {
    match r
    case Fail(e) =>
      Stop(Note(logging, Log.Errored(a, e.message, world.clock(ErrorLogged(i)))), Some(Execution(e)))
    case Pass =>
      var duration := ActionDuration(world, i, actionStart);
      var calls := Note(logging, Log.Completed(i, duration, world.clock(CompletionLogged(i)))) + [Pause(i, PauseAfterAction)];
      match world.io(Pause(i, PauseAfterAction))
      case Fail(reason) => Stop(calls, Some(Other(reason)))
      case Pass => Stop(calls, None)
  }

  /** Round `i` of the action loop. */
  function Round(actions: seq<Action>, i: nat, handlers: map<string, Handler>, context: ActionContext,
                 logging: bool, world: World): Stop
  {
    if i >= |actions| then Stop([], None)
    else
      var a := actions[i];
      After(Opening(a, i, logging, world),
            Closing(a, i, Dispatch(handlers, context, a, ThePage, i, world.run), world.clock(ActionStart(i)), logging, world))
  }

  /** The rounds of a run's action loop. */
  function Rounds(actions: seq<Action>, handlers: map<string, Handler>, context: ActionContext,
                  logging: bool, world: World): nat -> Stop
  {
    (j: nat) => Round(actions, j, handlers, context, logging, world)
  }

  /** The loop over rounds `i` to `n - 1` after the calls `done`, stopping at the first round
      that throws. */
  function Loop(n: nat, i: nat, round: nat -> Stop, done: seq<Call>): Stop
    requires i <= n
    decreases n - i
  {
    if i == n then Stop(done, None)
    else if round(i).thrown.Some? then After(done, round(i))
    else Loop(n, i + 1, round, done + round(i).calls)
  }

  /** The indices of the executed actions, in the order of the calls. */
  function ExecutedIndices(calls: seq<Call>): seq<nat>
  {
    if |calls| == 0 then []
    else ExecutedIndices(calls[..|calls| - 1]) + (if calls[|calls| - 1].Executed? then [calls[|calls| - 1].index] else [])
  }

  lemma {:induction false} ExecutedIndicesAppend(p: seq<Call>, q: seq<Call>)
    ensures ExecutedIndices(p + q) == ExecutedIndices(p) + ExecutedIndices(q)
    decreases |q|
  {
    if |q| == 0 {
      assert p + q == p;
    } else {
      var q' := q[..|q| - 1];
      assert (p + q)[..|p + q| - 1] == p + q';
      ExecutedIndicesAppend(p, q');
    }
  }

  /** The indices `from`, `from + 1`, ..., `to - 1`. */
  function Range(from: nat, to: nat): seq<nat>
    requires from <= to
    decreases (to - from) as int
  {
    if from == to then [] else [from] + Range(from + 1, to)
  }


  /** A logger call executes no action. */
  lemma NoteExecutesNothing(logging: bool, e: Log.Event)
    ensures ExecutedIndices(Note(logging, e)) == []
  {
    if logging {
      assert ExecutedIndices([Logger(e)]) == ExecutedIndices([]) + [];
    }
  }

  /** Action `j` ran to the end and the pause after it completed. */
  predicate Proceeds(actions: seq<Action>, j: nat, handlers: map<string, Handler>, context: ActionContext, world: World)
    requires j < |actions|
  {
    Dispatch(handlers, context, actions[j], ThePage, j, world.run).Pass? && world.io(Pause(j, PauseAfterAction)).Pass?
  }

  /** Each round executes its own action and no other, and goes on exactly when the action
      and the pause after it complete. */
  lemma RoundExecutesOne(actions: seq<Action>, i: nat, handlers: map<string, Handler>, context: ActionContext,
                         logging: bool, world: World)
    requires i < |actions|
    ensures ExecutedIndices(Round(actions, i, handlers, context, logging, world).calls) == [i]
    ensures Round(actions, i, handlers, context, logging, world).thrown.None? <==> Proceeds(actions, i, handlers, context, world)
  {
    var a := actions[i];
    var r := Dispatch(handlers, context, a, ThePage, i, world.run);
    var opening := Opening(a, i, logging, world);
    var closing := Closing(a, i, r, world.clock(ActionStart(i)), logging, world);
    NoteExecutesNothing(logging, Log.Logged(a, world.clock(ActionLogged(i))));
    ExecutedIndicesAppend(Note(logging, Log.Logged(a, world.clock(ActionLogged(i)))), [Executed(i)]);
    assert ExecutedIndices([Executed(i)]) == ExecutedIndices([]) + [i];
    assert ExecutedIndices(closing.calls) == [] by {
      if r.Fail? {
        NoteExecutesNothing(logging, Log.Errored(a, r.error.message, world.clock(ErrorLogged(i))));
      } else {
        var duration := ActionDuration(world, i, world.clock(ActionStart(i)));
        NoteExecutesNothing(logging, Log.Completed(i, duration, world.clock(CompletionLogged(i))));
        ExecutedIndicesAppend(Note(logging, Log.Completed(i, duration, world.clock(CompletionLogged(i)))), [Pause(i, PauseAfterAction)]);
        assert ExecutedIndices([Pause(i, PauseAfterAction)]) == ExecutedIndices([]) + [];
      }
    }
    ExecutedIndicesAppend(opening, closing.calls);
  }


  /** The first round from `i` on that throws, or `n` when none does. */
  function Halt(n: nat, i: nat, round: nat -> Stop): (h: nat)
    requires i <= n
    ensures i <= h <= n && (h < n ==> round(h).thrown.Some?)
    decreases n - i
  {
    if i == n || round(i).thrown.Some? then i else Halt(n, i + 1, round)
  }

  /** Every round before the halting one goes on. */
  lemma {:induction false} BeforeHaltGoesOn(n: nat, i: nat, round: nat -> Stop)
    requires i <= n
    ensures forall j :: i <= j < Halt(n, i, round) ==> round(j).thrown.None?
    decreases n - i
  {
    if i < n && round(i).thrown.None? {
      BeforeHaltGoesOn(n, i + 1, round);
    }
  }

  /** A range grows at its front by one index. */
  lemma RangeFrom(before: seq<nat>, i: nat, last: nat)
    requires i <= last
    ensures i == last ==> before + Range(i, last) == before
    ensures i < last ==> (before + [i]) + Range(i + 1, last) == before + Range(i, last)
    ensures i + 1 == last ==> before + Range(i, last) == before + [i]
  {
    if i < last {
      assert Range(i, last) == [i] + Range(i + 1, last);
      assert (before + [i]) + Range(i + 1, last) == before + ([i] + Range(i + 1, last));
    } else {
      assert before + [] == before;
    }
  }

  /** The number of rounds from `i` on that run: up to and including the first that throws. */
  function Ran(n: nat, i: nat, round: nat -> Stop): (r: nat)
    requires i <= n
    ensures i <= r <= n
  {
    if Halt(n, i, round) < n then Halt(n, i, round) + 1 else n
  }

  /** Rounds `i` to `n - 1` run in index order, each executing its own action, up to the first
      round that throws, which is the last; the loop throws what that round throws, and only
      when there is such a round. */
  lemma {:induction false} LoopRunsInOrder(n: nat, i: nat, round: nat -> Stop, done: seq<Call>)
    requires i <= n
    requires forall j :: i <= j < n ==> ExecutedIndices(round(j).calls) == [j]
    ensures ExecutedIndices(Loop(n, i, round, done).calls) == ExecutedIndices(done) + Range(i, Ran(n, i, round))
    ensures Loop(n, i, round, done).thrown == if Halt(n, i, round) < n then round(Halt(n, i, round)).thrown else None
    decreases n - i
  {
    if i == n {
      RangeFrom(ExecutedIndices(done), i, i);
    } else {
      ExecutedIndicesAppend(done, round(i).calls);
      if round(i).thrown.Some? {
        RangeFrom(ExecutedIndices(done), i, i + 1);
      } else {
        LoopRunsInOrder(n, i + 1, round, done + round(i).calls);
        RangeFrom(ExecutedIndices(done), i, Ran(n, i, round));
      }
    }
  }

  /** A property of single calls that holds of every call before the loop and of every call
      of every round holds of every call of the loop. */
  lemma {:induction false} LoopCallsAll(n: nat, i: nat, round: nat -> Stop, done: seq<Call>, P: Call -> bool)
    requires i <= n
    requires forall c :: c in done ==> P(c)
    requires forall j, c :: i <= j < n && c in round(j).calls ==> P(c)
    ensures forall c :: c in Loop(n, i, round, done).calls ==> P(c)
    decreases n - i
  {
    if i < n {
      if round(i).thrown.None? {
        LoopCallsAll(n, i + 1, round, done + round(i).calls, P);
      }
    }
  }

  /** A round makes logger calls only when the logger exists, and never generates the derived
      files or finalizes. */
  lemma RoundLoggerCalls(actions: seq<Action>, i: nat, handlers: map<string, Handler>, context: ActionContext,
                         logging: bool, world: World)
    ensures forall c :: c in Round(actions, i, handlers, context, logging, world).calls ==>
      (c.Logger? ==> logging && (c.event.Logged? || c.event.Completed? || c.event.Errored?))
  {
  }

  // The run

  /** `listFiles(..., /\.webm$/)` keeps the names ending in `.webm`. */
  predicate IsWebm(name: string)
  {
    EndsWith(name, ".webm")
  }

  /** The recording to keep: the last `.webm` file of the listing, if there is one and its name
      is not empty; a listing failure is thrown. */
  function LatestVideo(listing: Result<seq<FS.DirEntry>, string>): Result<Option<string>, FileSystemError>
  {
    match FS.ListFiles(TempVideoDir, listing, Some(IsWebm))
    case Err(e) => Err(e)
    case Ok(videos) =>
      if |videos| == 0 || videos[|videos| - 1] == "" then Ok(None) else Ok(Some(videos[|videos| - 1]))
  }

  /** `getOutputPath(name, 'video', 'video.webm', dir)`: the copy of the recording. */
  function WebmPath(dir: string): string
  {
    Paths.Join(dir, "video.webm.mp4")
  }

  /** `getOutputPath(name, 'video', 'video', dir)`: the converted video. */
  function Mp4Path(dir: string): string
  {
    Paths.Join(dir, "video.mp4")
  }

  /** The two video paths are the ones `getOutputPath` gives for a run directory: since the
      video extension is always appended, the copy of the `.webm` recording is named
      `video.webm.mp4`. */
  lemma VideoPathsAreOutputPaths(name: string, dir: string, stamp: string)
    requires dir != ""
    ensures FS.GetOutputPath(name, FS.Video, Some("video.webm"), Some(dir), stamp) == WebmPath(dir)
    ensures FS.GetOutputPath(name, FS.Video, Some("video"), Some(dir), stamp) == Mp4Path(dir)
    ensures WebmPath(dir) != Mp4Path(dir)
  {
    assert "video.webm" + "." + "mp4" == "video.webm.mp4";
    assert "video" + "." + "mp4" == "video.mp4";
    var w, m := WebmPath(dir), Mp4Path(dir);
    assert w[|w| - 8..] != m[|m| - 8..] by {
      assert EndsWith(w, "video.webm.mp4") && EndsWith(m, "video.mp4");
      assert w[|w| - 8] == 'w' && m[|m| - 8] == 'i';
    }
  }

  /** How a stretch of the run ended: its calls, what it threw, and the video path it set. */
  datatype Reach = Reach(calls: seq<Call>, thrown: Option<Failure>, videoPath: Option<string>)

  /** The tail of saving a recording `temp` into `dir`: copy it (creating `dir` first), let
      the logger write its files when `generate`, convert it with the chapter file
      `chapters`, and delete the temporary file. The converter never throws: the video path
      is the `.mp4` when it succeeds and the copy when it does not. */
  function Transfer(temp: string, dir: string, webm: string, mp4: string, chapters: Option<string>, generate: bool,
                    io: Call -> Outcome<string>): Reach
  {
    var copyCalls := if io(MakeDirectory(dir)).Pass? then [MakeDirectory(dir), CopyVideo(temp, webm)] else [MakeDirectory(dir)];
    match FS.CopyFile(temp, webm, dir, io(MakeDirectory(dir)), io(CopyVideo(temp, webm)))
    case Fail(e) => Reach(copyCalls, Some(Failure.FileSystem(e)), None)
    case Pass => Behind(copyCalls, Conversion(temp, webm, mp4, chapters, generate, io))
  }

  /** The calls `prefix`, then the stretch `r`. */
  function Behind(prefix: seq<Call>, r: Reach): Reach
  {
    Reach(prefix + r.calls, r.thrown, r.videoPath)
  }

  /** After the copy: the logger's files are written, if there is a logger; the copy is
      converted, and the result is the MP4 file when the conversion succeeds and the copy
      otherwise; then the recording is deleted, which throws when it fails. */
  function Conversion(temp: string, webm: string, mp4: string, chapters: Option<string>, generate: bool,
                      io: Call -> Outcome<string>): Reach
  {
    var convert := Convert(webm, mp4, chapters);
    var video := if io(convert).Pass? then mp4 else webm;
    var calls := Note(generate, Log.Generated) + [convert, DeleteFile(temp)];
    match FS.Single(FS.DeleteFileOperation, temp, io(DeleteFile(temp)))
    case Fail(e) => Reach(calls, Some(Failure.FileSystem(e)), Some(video))
    case Pass => Reach(calls, None, Some(video))
  }


  /** The chapter file the logger of a run in `dir` writes, if there is a logger. */
  function ChapterFile(dir: string, logging: bool): Option<string>
  {
    if logging then Some(Paths.Join(dir, "chapters.txt")) else None
  }

  /** Saving the recording after the actions succeeded (recording on). */
  function SaveVideo(dir: string, logging: bool, world: World): Reach
  {
    match LatestVideo(world.tempVideos)
    case Err(e) => Reach([ListVideos], Some(Failure.FileSystem(e)), None)
    case Ok(None) => Reach([ListVideos], None, None)
    case Ok(Some(v)) =>
      var t := Transfer(Paths.Join(TempVideoDir, v), dir, WebmPath(dir), Mp4Path(dir), ChapterFile(dir, logging), logging, world.io);
      Reach([ListVideos] + t.calls, t.thrown, t.videoPath)
  }

  /** The saving of the video in the wrap-up: only a recording run saves one. */
  function KeptVideo(o: ExecuteOptions, dir: string, world: World): Reach
  {
    if Recording(o) then SaveVideo(dir, true, world) else Reach([], None, None)
  }

  /** Where the main block stopped: its calls and what it threw, whether the browser object
      exists and is still initialized (launched, and not closed), whether the logger exists,
      the run directory and the video path. */
  datatype Attempt = Attempt(calls: seq<Call>, thrown: Option<Failure>, browser: bool, initialized: bool,
                             logging: bool, dir: string, videoPath: Option<string>)

  /** After the last action: close the page, save the video when recording, save the session
      when asked, close the browser. A failed browser close leaves the browser uninitialized,
      since the page, which it closes first, was already closed. */
  function Wrapup(o: ExecuteOptions, dir: string, world: World): Attempt
  {
    match world.io(ClosePage)
    case Fail(reason) => Attempt([ClosePage], Some(Other(reason)), true, true, Recording(o), dir, None)
    case Pass => Shutdown(o, dir, KeptVideo(o, dir, world), world)
  }

  /** The wrap-up once the page is closed and the video saving has ended as `video`: a throw
      from it is passed on; otherwise the session is saved when asked and the browser closed. */
  function Shutdown(o: ExecuteOptions, dir: string, video: Reach, world: World): Attempt
  {
    var logging := Recording(o);
    var calls := [ClosePage] + video.calls;
    if video.thrown.Some? then Attempt(calls, video.thrown, true, true, logging, dir, video.videoPath)
    else
      var session := if Truthy(o.saveSession) then [SaveSession(o.saveSession.value)] else [];
      var saved := if Truthy(o.saveSession) then world.io(SaveSession(o.saveSession.value)) else Pass;
      if saved.Fail? then Attempt(calls + session, Some(Other(saved.error)), true, true, logging, dir, video.videoPath)
      else
        match world.io(CloseBrowser)
        case Fail(reason) => Attempt(calls + session + [CloseBrowser], Some(Other(reason)), true, false, logging, dir, video.videoPath)
        case Pass => Attempt(calls + session + [CloseBrowser], None, true, false, logging, dir, video.videoPath)
  }

  /** The wrap-up keeps the run directory, the logger and the video path the saving set. */
  lemma ShutdownKeeps(o: ExecuteOptions, dir: string, video: Reach, world: World)
    ensures var a := Shutdown(o, dir, video, world);
      a.videoPath == video.videoPath && a.dir == dir && a.logging == Recording(o)
  {
  }

  /** `getWorkflowOutputDirectory(name, timestamp)` with the run's own timestamp. */
  function RunDirectory(name: string, world: World): string
  {
    FS.GetWorkflowOutputDirectory(name, Some(world.stamp), world.stamp)
  }

  /** The main (`try`) block of `executeWorkflow`: the configuration is loaded first, and a
      failure to load it is thrown before anything else happens. */
  function TryBlock(w: Workflow, o: ExecuteOptions, world: World): Attempt
  {
    match MergedConfig(w, world)
    case Err(e) => Attempt([], Some(Config(e)), false, false, false, "", None)
    case Ok(_) => Started(w, o, RunDirectory(w.name, world), world)
  }

  /** The rest of the main block in the run directory `dir`: the directory and its
      `screenshots` sub-directory are created, then the browser is launched. */
  function Started(w: Workflow, o: ExecuteOptions, dir: string, world: World): Attempt
  {
    var shots := Paths.Join(dir, "screenshots");
    match FS.Single(FS.CreateDirectory, dir, world.io(MakeDirectory(dir)))
    case Fail(e) => Attempt([MakeDirectory(dir)], Some(Failure.FileSystem(e)), false, false, false, dir, None)
    case Pass =>
      match FS.Single(FS.CreateDirectory, shots, world.io(MakeDirectory(shots)))
      case Fail(e) => Attempt([MakeDirectory(dir), MakeDirectory(shots)], Some(Failure.FileSystem(e)), false, false, false, dir, None)
      case Pass =>
        Browsing(w, o, dir, [MakeDirectory(dir), MakeDirectory(shots), LaunchBrowser], world)
  }

  /** The browser is launched, the last of the calls `setup`; once it runs, the actions run. */
  function Browsing(w: Workflow, o: ExecuteOptions, dir: string, setup: seq<Call>, world: World): Attempt
  {
    match world.io(LaunchBrowser)
    case Fail(reason) => Attempt(setup, Some(Other(reason)), true, false, false, dir, None)
    case Pass => Driven(w, o, dir, setup, world)
  }

  /** The rounds of a run in `dir`: the standard handlers, with the run directory as context. */
  function RunRounds(w: Workflow, o: ExecuteOptions, dir: string, world: World): nat -> Stop
  {
    Rounds(w.actions, Registry.WithStandard(map[]), ActionContext(Some(dir)), Recording(o), world)
  }

  /** Action `j` of a run in `dir` completes, and so does the pause after it. */
  predicate Succeeds(w: Workflow, j: nat, dir: string, world: World)
    requires j < |w.actions|
  {
    Proceeds(w.actions, j, Registry.WithStandard(map[]), ActionContext(Some(dir)), world)
  }

  /** The rest of the main block once the browser runs, after the calls `setup`: the action
      loop with the standard handlers and the run directory as context, then the wrap-up. */
  function Driven(w: Workflow, o: ExecuteOptions, dir: string, setup: seq<Call>, world: World): Attempt
  {
    var logging := Recording(o);
    var loop := Loop(|w.actions|, 0, RunRounds(w, o, dir, world), setup);
    if loop.thrown.Some? then Attempt(loop.calls, loop.thrown, true, true, logging, dir, None)
    else
      var rest := Wrapup(o, dir, world);
      rest.(calls := loop.calls + rest.calls)
  }

  /** The recovery's attempt to keep the recording of a failed run: close the page, and copy
      and convert the last recording into a new run directory stamped `salvageStamp`, with the
      chapter file of the logger (in the first run directory `dir`) handed to the converter.
      Whatever it throws is swallowed. */
  function Salvage(name: string, dir: string, logging: bool, world: World): Reach
  {
    var io := world.recovery;
    match io(ClosePage)
    case Fail(_) => Reach([ClosePage], None, None)
    case Pass =>
      match LatestVideo(world.salvageVideos)
      case Err(_) => Reach([ClosePage, ListVideos], None, None)
      case Ok(None) => Reach([ClosePage, ListVideos], None, None)
      case Ok(Some(v)) =>
        var target := FS.GetWorkflowOutputDirectory(name, None, world.salvageStamp);
        match io(MakeDirectory(target))
        case Fail(_) => Reach([ClosePage, ListVideos, MakeDirectory(target)], None, None)
        case Pass =>
          var t := Transfer(Paths.Join(TempVideoDir, v), target, WebmPath(target), Mp4Path(target), ChapterFile(dir, logging), false, io);
          Reach([ClosePage, ListVideos, MakeDirectory(target)] + t.calls, None, t.videoPath)
  }

  /** The salvage as evidently intended: as `Salvage`, but the logger, if there is one, writes
      its cue and chapter files before the conversion, as on the success path, so that the
      chapter file handed to the converter exists. */
  function SalvageWithChapters(name: string, dir: string, logging: bool, world: World): Reach
  {
    var io := world.recovery;
    match io(ClosePage)
    case Fail(_) => Reach([ClosePage], None, None)
    case Pass =>
      match LatestVideo(world.salvageVideos)
      case Err(_) => Reach([ClosePage, ListVideos], None, None)
      case Ok(None) => Reach([ClosePage, ListVideos], None, None)
      case Ok(Some(v)) =>
        var target := FS.GetWorkflowOutputDirectory(name, None, world.salvageStamp);
        match io(MakeDirectory(target))
        case Fail(_) => Reach([ClosePage, ListVideos, MakeDirectory(target)], None, None)
        case Pass =>
          var t := Transfer(Paths.Join(TempVideoDir, v), target, WebmPath(target), Mp4Path(target), ChapterFile(dir, logging), logging, io);
          Reach([ClosePage, ListVideos, MakeDirectory(target)] + t.calls, None, t.videoPath)
  }

  /** What `executeWorkflow` returns, and the calls it made. */
  datatype Report = Report(result: ExecutionResult, calls: seq<Call>)

  /** `executeWorkflow(workflow, options)`: the main block, then, on a throw, the recovery
      (salvage the video if the browser is still initialized, close the browser if it was
      created, swallowing failures); on both exits the duration is measured and the logger,
      if any, is finalized. */
  function RunWorkflow(w: Workflow, o: ExecuteOptions, world: World): Report
  {
    Reported(w.name, TryBlock(w, o, world), world)
  }

  /** What the run of the workflow `name` reports once its main block stopped at `a`. */
  function Reported(name: string, a: Attempt, world: World): Report
  {
    var duration := RunDuration(world);
    var finish := Note(a.logging, Log.Finalized(duration, world.completedIso));
    if a.thrown.None? then
      Report(ExecutionResult(true, a.videoPath, Some(a.dir), None, Some(duration)), a.calls + finish)
    else
      var caught := Caught(name, a, world);
      Report(ExecutionResult(false, caught.videoPath, None, a.thrown, Some(duration)), a.calls + caught.calls + finish)
  }

  /** The duration of a run: the clock at its end less the clock at its start. */
  function RunDuration(world: World): int
  {
    world.clock(RunEnd) - world.clock(RunStart)
  }

  /** The `catch` block before the finalization, after the main block stopped at `a`: the
      recording is salvaged if the browser is still initialized, and the browser is closed if
      it was created. A video path the salvage sets replaces the one set before the throw. */
  function Caught(name: string, a: Attempt, world: World): Reach
  {
    var salvage := if a.initialized then Salvage(name, a.dir, a.logging, world) else Reach([], None, None);
    var close := if a.browser then [CloseBrowser] else [];
    Reach(salvage.calls + close, None, if salvage.videoPath.Some? then salvage.videoPath else a.videoPath)
  }

  // The run, step by step

  /** The logger's view of a trace that grows by one call. */
  lemma LogStep(s0: Log.LoggerState, calls: seq<Call>, c: Call)
    ensures !c.Logger? ==> LoggerEvents(calls + [c]) == LoggerEvents(calls)
    ensures c.Logger? ==> Log.Replay(s0, LoggerEvents(calls + [c])) == Log.Apply(Log.Replay(s0, LoggerEvents(calls)), c.event)
  {
    assert (calls + [c])[..|calls|] == calls;
    if c.Logger? {
      var evs := LoggerEvents(calls);
      assert (evs + [c.event])[..|evs|] == evs;
    }
  }

  /** The logger's state after two stretches of a trace. */
  lemma LogChain(s0: Log.LoggerState, p: seq<Call>, q: seq<Call>)
    ensures Log.Replay(s0, LoggerEvents(p + q)) == Log.Replay(Log.Replay(s0, LoggerEvents(p)), LoggerEvents(q))
  {
    LoggerEventsAppend(p, q);
    Log.ReplayAppend(s0, LoggerEvents(p), LoggerEvents(q));
  }

  /** Calls none of which is a logger call leave the logger alone. */
  lemma {:induction false} Silent(calls: seq<Call>)
    requires forall c :: c in calls ==> !c.Logger?
    ensures LoggerEvents(calls) == []
    decreases |calls|
  {
    if |calls| > 0 {
      assert calls[|calls| - 1] in calls;
      assert forall c :: c in calls[..|calls| - 1] ==> c in calls;
      Silent(calls[..|calls| - 1]);
    }
  }

  /** A placeholder for the logger's state where there is no logger. */
  ghost const Unused := Log.LoggerState(0, false, Log.NoConfig, [], [], [], "", None, None)

  /** The configuration a run loads. */
  function MergedConfig(w: Workflow, world: World): Result<GlobalConfig, ConfigError>
  {
    ConfigManager.LoadAndMergeConfigs(w.name, world.userConfig, world.shippedConfig, world.workflowConfig)
  }

  /** The two logger switches the run takes from the video configuration. */
  function LoggerSettings(config: GlobalConfig): Log.LoggerConfig
  {
    Log.LoggerConfig(config.video.skipAllVtt, config.video.skipAllChapters)
  }

  /** The logger's state when a run creates it: the workflow's name, the two switches from
      the loaded configuration, and the clock reading and ISO date of its creation. */
  ghost function StartState(w: Workflow, world: World): Log.LoggerState
  {
    var settings := if MergedConfig(w, world).Ok? then Some(LoggerSettings(MergedConfig(w, world).value)) else None;
    Log.Initial(w.name, settings, world.clock(LoggerStart), world.startedIso)
  }

  /** `round` stands for the rounds of the action loop over `actions`. */
  ghost predicate RoundsAre(round: nat -> Stop, actions: seq<Action>, handlers: map<string, Handler>,
                            context: ActionContext, logging: bool, world: World)
  {
    forall j: nat {:trigger Round(actions, j, handlers, context, logging, world)} ::
      j < |actions| ==> round(j) == Round(actions, j, handlers, context, logging, world)
  }

  /** One of the action loop's calls on the logger, if there is one, for action `a` at
      `index`, after the calls `done`: the logger's state follows the trace. */
  method Record(logger: Log.TimecodeLogger?, e: Log.Event, a: Action, index: int, ghost s0: Log.LoggerState,
                done: seq<Call>)
    returns (calls: seq<Call>)
    requires e.Logged? || e.Completed? || e.Errored?
    requires logger != null ==> logger.State() == Log.Replay(s0, LoggerEvents(done))
    modifies logger
    ensures calls == done + Note(logger != null, e)
    ensures logger != null ==> logger.State() == Log.Replay(s0, LoggerEvents(calls))
  {
    if logger == null {
      return done;
    }
    if e.Logged? {
      logger.LogAction(e.action, index, e.at);
    } else if e.Completed? {
      logger.LogActionComplete(a, e.index, e.duration, e.at);
    } else {
      logger.LogError(e.action, index, e.message, e.at);
    }
    LogStep(s0, done, Logger(e));
    calls := done + [Logger(e)];
  }

  /** The end of a round after the calls `done`, once the action's outcome is known. */
  method CloseRound(logger: Log.TimecodeLogger?, a: Action, i: nat, r: Outcome<ExecutionError>, actionStart: int,
                    world: World, ghost s0: Log.LoggerState, done: seq<Call>)
    returns (calls: seq<Call>, thrown: Option<Failure>)
    requires logger != null ==> logger.State() == Log.Replay(s0, LoggerEvents(done))
    modifies logger
    ensures Stop(calls, thrown) == After(done, Closing(a, i, r, actionStart, logger != null, world))
    ensures logger != null ==> logger.State() == Log.Replay(s0, LoggerEvents(calls))
  {
    if r.Fail? {
      calls, thrown := RoundFailed(logger, a, i, r, actionStart, world, s0, done);
    } else {
      calls, thrown := RoundPassed(logger, a, i, r, actionStart, world, s0, done);
    }
  }

  /** The end of a round whose action threw: the error is logged and thrown again. */
  method RoundFailed(logger: Log.TimecodeLogger?, a: Action, i: nat, r: Outcome<ExecutionError>, actionStart: int,
                     world: World, ghost s0: Log.LoggerState, done: seq<Call>)
    returns (calls: seq<Call>, thrown: Option<Failure>)
    requires r.Fail?
    requires logger != null ==> logger.State() == Log.Replay(s0, LoggerEvents(done))
    modifies logger
    ensures Stop(calls, thrown) == After(done, Closing(a, i, r, actionStart, logger != null, world))
    ensures logger != null ==> logger.State() == Log.Replay(s0, LoggerEvents(calls))
  {
    calls := Record(logger, Log.Errored(a, r.error.message, world.clock(ErrorLogged(i))), a, i, s0, done);
    thrown := Some(Execution(r.error));
  }

  /** The end of a round whose action succeeded: its duration is logged, then the pause. */
  method RoundPassed(logger: Log.TimecodeLogger?, a: Action, i: nat, r: Outcome<ExecutionError>, actionStart: int,
                     world: World, ghost s0: Log.LoggerState, done: seq<Call>)
    returns (calls: seq<Call>, thrown: Option<Failure>)
    requires r.Pass?
    requires logger != null ==> logger.State() == Log.Replay(s0, LoggerEvents(done))
    modifies logger
    ensures Stop(calls, thrown) == After(done, Closing(a, i, r, actionStart, logger != null, world))
    ensures logger != null ==> logger.State() == Log.Replay(s0, LoggerEvents(calls))
  {
    var duration := ActionDuration(world, i, actionStart);
    calls := Record(logger, Log.Completed(i, duration, world.clock(CompletionLogged(i))), a, i, s0, done);
    LogStep(s0, calls, Pause(i, PauseAfterAction));
    calls := calls + [Pause(i, PauseAfterAction)];
    var paused := world.io(Pause(i, PauseAfterAction));
    thrown := if paused.Fail? then Some(Other(paused.error)) else None;
  }

  /** The start of a round: the action is logged, if there is a logger, and marked executed. */
  method OpenRound(logger: Log.TimecodeLogger?, a: Action, i: nat, world: World) returns (calls: seq<Call>)
    modifies logger
    ensures calls == Opening(a, i, logger != null, world)
    ensures logger != null ==> logger.State() == Log.Replay(old(logger.State()), LoggerEvents(calls))
  {
    ghost var s0 := if logger != null then logger.State() else Unused;
    assert logger != null ==> s0 == Log.Replay(s0, LoggerEvents([]));
    calls := Record(logger, Log.Logged(a, world.clock(ActionLogged(i))), a, i, s0, []);
    assert calls == Note(logger != null, Log.Logged(a, world.clock(ActionLogged(i))));
    LogStep(s0, calls, Executed(i));
    calls := calls + [Executed(i)];
  }

  /** One round of the action loop: the action is logged, executed and, on success, logged
      as complete with its measured duration and followed by the pause; on failure the error
      is logged and thrown. */
  method RunRound(actions: seq<Action>, i: nat, executor: ActionExecutor, logger: Log.TimecodeLogger?, world: World)
    returns (calls: seq<Call>, thrown: Option<Failure>)
    requires i < |actions|
    modifies logger
    ensures Stop(calls, thrown) == Round(actions, i, executor.handlers, executor.context, logger != null, world)
    ensures logger != null ==> logger.State() == Log.Replay(old(logger.State()), LoggerEvents(calls))
  {
    ghost var s0 := if logger != null then logger.State() else Unused;
    var a := actions[i];
    calls := OpenRound(logger, a, i, world);
    var actionStart := world.clock(ActionStart(i));
    var r := executor.ExecuteAction(a, ThePage, i, world.run);
    calls, thrown := CloseRound(logger, a, i, r, actionStart, world, s0, calls);
  }

  /** The action loop (`for` over the actions) after the calls `done`, stopping at the first
      round that throws. */
  method RunActions(actions: seq<Action>, executor: ActionExecutor, logger: Log.TimecodeLogger?, world: World,
                    ghost round: nat -> Stop, ghost s0: Log.LoggerState, done: seq<Call>)
    returns (calls: seq<Call>, thrown: Option<Failure>)
    requires RoundsAre(round, actions, executor.handlers, executor.context, logger != null, world)
    requires logger != null ==> logger.State() == Log.Replay(s0, LoggerEvents(done))
    modifies logger
    ensures Stop(calls, thrown) == Loop(|actions|, 0, round, done)
    ensures logger != null ==> logger.State() == Log.Replay(s0, LoggerEvents(calls))
  {
    var n := |actions|;
    calls := done;
    thrown := None;
    var i := 0;
    while i < n
      invariant 0 <= i <= n && thrown.None?
      invariant Loop(n, 0, round, done) == Loop(n, i, round, calls)
      invariant logger != null ==> logger.State() == Log.Replay(s0, LoggerEvents(calls))
    {
      var roundCalls, roundThrown := RunRound(actions, i, executor, logger, world);
      if logger != null {
        LogChain(s0, calls, roundCalls);
      }
      calls, thrown := calls + roundCalls, roundThrown;
      if thrown.Some? {
        return;
      }
      i := i + 1;
    }
  }

  /** The logger's files, written when there is a logger, after the calls `done`. */
  method Generate(generator: Log.TimecodeLogger?, ghost s0: Log.LoggerState, done: seq<Call>) returns (calls: seq<Call>)
    requires generator != null ==> generator.State() == Log.Replay(s0, LoggerEvents(done))
    modifies generator
    ensures calls == done + Note(generator != null, Log.Generated)
    ensures generator != null ==> generator.State() == Log.Replay(s0, LoggerEvents(calls))
  {
    if generator == null {
      return done;
    }
    generator.GenerateFiles();
    LogStep(s0, done, Logger(Log.Generated));
    calls := done + [Logger(Log.Generated)];
  }

  /** The conversion and the clean-up after the calls `done`. */
  method ConvertAndClean(temp: string, webm: string, mp4: string, chapters: Option<string>,
                         generator: Log.TimecodeLogger?, io: Call -> Outcome<string>, ghost s0: Log.LoggerState,
                         done: seq<Call>) returns (r: Reach)
    requires generator != null ==> generator.State() == Log.Replay(s0, LoggerEvents(done))
    modifies generator
    ensures r == Behind(done, Conversion(temp, webm, mp4, chapters, generator != null, io))
    ensures generator != null ==> generator.State() == Log.Replay(s0, LoggerEvents(r.calls))
  {
    var calls := Generate(generator, s0, done);
    var convert := Convert(webm, mp4, chapters);
    var video := if io(convert).Pass? then mp4 else webm;
    LogStep(s0, calls, convert);
    LogStep(s0, calls + [convert], DeleteFile(temp));
    assert calls + [convert] + [DeleteFile(temp)] == done + (Note(generator != null, Log.Generated) + [convert, DeleteFile(temp)]);
    calls := calls + [convert] + [DeleteFile(temp)];
    var deleted := FS.Single(FS.DeleteFileOperation, temp, io(DeleteFile(temp)));
    if deleted.Fail? {
      return Reach(calls, Some(Failure.FileSystem(deleted.error)), Some(video));
    }
    return Reach(calls, None, Some(video));
  }

  /** Copying, converting and cleaning up one recording; `generator` is the logger that
      writes its files before the conversion, if any. */
  method CopyAndConvert(temp: string, dir: string, webm: string, mp4: string, chapters: Option<string>,
                        generator: Log.TimecodeLogger?, io: Call -> Outcome<string>) returns (r: Reach)
    modifies generator
    ensures r == Transfer(temp, dir, webm, mp4, chapters, generator != null, io)
    ensures generator != null ==> generator.State() == Log.Replay(old(generator.State()), LoggerEvents(r.calls))
  {
    var mkdir := io(MakeDirectory(dir));
    var calls := if mkdir.Pass? then [MakeDirectory(dir), CopyVideo(temp, webm)] else [MakeDirectory(dir)];
    Silent(calls);
    var copied := FS.CopyFile(temp, webm, dir, mkdir, io(CopyVideo(temp, webm)));
    if copied.Fail? {
      return Reach(calls, Some(Failure.FileSystem(copied.error)), None);
    }
    ghost var s0 := if generator != null then generator.State() else Unused;
    r := ConvertAndClean(temp, webm, mp4, chapters, generator, io, s0, calls);
  }


  /** Saving the recording after the actions succeeded: the last recording, if any, is copied
      into the run directory `dir` and converted with the logger's chapter file. */
  method KeepRecording(dir: string, logger: Log.TimecodeLogger?, world: World) returns (r: Reach)
    requires logger != null ==> logger.chapterFilePath == Paths.Join(dir, "chapters.txt")
    modifies logger
    ensures r == SaveVideo(dir, logger != null, world)
    ensures logger != null ==> logger.State() == Log.Replay(old(logger.State()), LoggerEvents(r.calls))
  {
    var latest := LatestVideo(world.tempVideos);
    if latest.Err? {
      return Reach([ListVideos], Some(Failure.FileSystem(latest.error)), None);
    }
    if latest.value.None? {
      return Reach([ListVideos], None, None);
    }
    var temp := Paths.Join(TempVideoDir, latest.value.value);
    var chapters := if logger != null then Some(logger.chapterFilePath) else None;
    var t := CopyAndConvert(temp, dir, WebmPath(dir), Mp4Path(dir), chapters, logger, world.io);
    if logger != null {
      LogChain(old(logger.State()), [ListVideos], t.calls);
      Silent([ListVideos]);
    }
    r := Behind([ListVideos], t);
  }

  /** The end of the main block after the last action: the page is closed, the recording
      kept when recording, the session saved when asked, and the browser closed. */
  method Finish(o: ExecuteOptions, dir: string, logger: Log.TimecodeLogger?, world: World) returns (a: Attempt)
    requires (logger != null) == Recording(o)
    requires logger != null ==> logger.chapterFilePath == Paths.Join(dir, "chapters.txt")
    modifies logger
    ensures a == Wrapup(o, dir, world)
    ensures a.logging == (logger != null) && a.dir == dir
    ensures logger != null ==> logger.State() == Log.Replay(old(logger.State()), LoggerEvents(a.calls))
  {
    var logging := logger != null;
    ghost var s0 := if logger != null then logger.State() else Unused;
    Silent([ClosePage]);
    var closed := world.io(ClosePage);
    if closed.Fail? {
      return Attempt([ClosePage], Some(Other(closed.error)), true, true, logging, dir, None);
    }
    var video := Reach([], None, None);
    if logging {
      video := KeepRecording(dir, logger, world);
    }
    assert video == KeptVideo(o, dir, world);
    var tail;
    a, tail := CloseUp(o, dir, video, world);
    if logger != null {
      QuietEnds(s0, video.calls, tail);
    }
  }

  /** Closing the page before `calls` and the logger-free `tail` after them add nothing to
      what the logger is told. */
  lemma QuietEnds(s0: Log.LoggerState, calls: seq<Call>, tail: seq<Call>)
    requires forall c :: c in tail ==> !c.Logger?
    ensures Log.Replay(s0, LoggerEvents([ClosePage] + calls + tail)) == Log.Replay(s0, LoggerEvents(calls))
  {
    Silent([ClosePage]);
    Silent(tail);
    LogChain(s0, [ClosePage], calls);
    LogChain(s0, [ClosePage] + calls, tail);
  }

  /** The wrap-up once the page is closed and the video saving has ended as `video`; the calls
      it adds, `tail`, leave the logger alone. */
  method CloseUp(o: ExecuteOptions, dir: string, video: Reach, world: World) returns (a: Attempt, tail: seq<Call>)
    ensures a == Shutdown(o, dir, video, world)
    ensures a.logging == Recording(o) && a.dir == dir
    ensures a.calls == [ClosePage] + video.calls + tail
    ensures forall c :: c in tail ==> !c.Logger?
  {
    var logging := Recording(o);
    var calls := [ClosePage] + video.calls;
    tail := [];
    if video.thrown.Some? {
      assert calls + tail == calls;
      return Attempt(calls, video.thrown, true, true, logging, dir, video.videoPath), tail;
    }
    if Truthy(o.saveSession) {
      tail := [SaveSession(o.saveSession.value)];
      var saved := world.io(SaveSession(o.saveSession.value));
      if saved.Fail? {
        return Attempt(calls + tail, Some(Other(saved.error)), true, true, logging, dir, video.videoPath), tail;
      }
    }
    tail := tail + [CloseBrowser];
    var browserClosed := world.io(CloseBrowser);
    var thrown := if browserClosed.Fail? then Some(Other(browserClosed.error)) else None;
    a := Attempt(calls + tail, thrown, true, false, logging, dir, video.videoPath);
  }

  /** The main block once the browser runs, after the calls `setup`: the executor is set up
      with the run directory and the standard handlers, the actions are run and the run is
      wrapped up. */
  method Drive(w: Workflow, o: ExecuteOptions, dir: string, setup: seq<Call>, logger: Log.TimecodeLogger?, world: World)
    returns (a: Attempt)
    requires (logger != null) == Recording(o)
    requires logger != null ==> logger.chapterFilePath == Paths.Join(dir, "chapters.txt")
    requires LoggerEvents(setup) == []
    modifies logger
    ensures a == Driven(w, o, dir, setup, world)
    ensures a.logging == (logger != null) && a.dir == dir
    ensures logger != null ==> logger.State() == Log.Replay(old(logger.State()), LoggerEvents(a.calls))
  {
    var executor := new ActionExecutor();
    executor.SetContext(ActionContext(Some(dir)));
    Registry.RegisterActionHandlers(executor);
    var logging := logger != null;
    ghost var s0 := if logger != null then logger.State() else Unused;
    ghost var round := Rounds(w.actions, executor.handlers, executor.context, logging, world);
    assert RoundsAre(round, w.actions, executor.handlers, executor.context, logging, world);
    var calls, thrown := RunActions(w.actions, executor, logger, world, round, s0, setup);
    if thrown.Some? {
      return Attempt(calls, thrown, true, true, logging, dir, None);
    }
    var rest := Finish(o, dir, logger, world);
    if logger != null {
      LogChain(s0, calls, rest.calls);
    }
    a := rest.(calls := calls + rest.calls);
  }

  /** The browser is launched after the calls `setup`, and the logger is created when
      recording; then the actions run. */
  method Open(w: Workflow, o: ExecuteOptions, dir: string, setup: seq<Call>, config: GlobalConfig, world: World)
    returns (a: Attempt, logger: Log.TimecodeLogger?)
    requires MergedConfig(w, world) == Ok(config)
    requires LoggerEvents(setup) == []
    ensures a == Browsing(w, o, dir, setup, world)
    ensures (logger != null) == a.logging && a.dir == dir
    ensures logger != null ==> fresh(logger)
    ensures logger != null ==> logger.chapterFilePath == Paths.Join(dir, "chapters.txt")
    ensures logger != null ==> logger.State() == Log.Replay(StartState(w, world), LoggerEvents(a.calls))
  {
    logger := null;
    var launched := world.io(LaunchBrowser);
    if launched.Fail? {
      return Attempt(setup, Some(Other(launched.error)), true, false, false, dir, None), null;
    }
    if Recording(o) {
      logger := new Log.TimecodeLogger(dir, w.name, Some(LoggerSettings(config)), world.clock(LoggerStart), world.startedIso);
    }
    a := Drive(w, o, dir, setup, logger, world);
  }

  /** The main block in the run directory `dir`, once the configuration `config` is loaded:
      the directory and its `screenshots` sub-directory are created before the browser is
      launched. */
  method Launch(w: Workflow, o: ExecuteOptions, dir: string, config: GlobalConfig, world: World)
    returns (a: Attempt, logger: Log.TimecodeLogger?)
    requires MergedConfig(w, world) == Ok(config)
    ensures a == Started(w, o, dir, world)
    ensures (logger != null) == a.logging && a.dir == dir
    ensures logger != null ==> fresh(logger)
    ensures logger != null ==> logger.chapterFilePath == Paths.Join(dir, "chapters.txt")
    ensures logger != null ==> logger.State() == Log.Replay(StartState(w, world), LoggerEvents(a.calls))
  {
    var shots := Paths.Join(dir, "screenshots");
    var made := FS.Single(FS.CreateDirectory, dir, world.io(MakeDirectory(dir)));
    if made.Fail? {
      return Attempt([MakeDirectory(dir)], Some(Failure.FileSystem(made.error)), false, false, false, dir, None), null;
    }
    made := FS.Single(FS.CreateDirectory, shots, world.io(MakeDirectory(shots)));
    if made.Fail? {
      return Attempt([MakeDirectory(dir), MakeDirectory(shots)], Some(Failure.FileSystem(made.error)), false, false, false, dir, None), null;
    }
    var setup := [MakeDirectory(dir), MakeDirectory(shots), LaunchBrowser];
    Silent(setup);
    a, logger := Open(w, o, dir, setup, config, world);
  }

  /** The main (`try`) block of a run: the configuration is loaded, and a failure to load it
      is thrown before anything else happens. Returns the logger, if one was created. */
  method MainBlock(w: Workflow, o: ExecuteOptions, world: World) returns (a: Attempt, logger: Log.TimecodeLogger?)
    ensures a == TryBlock(w, o, world)
    ensures (logger != null) == a.logging
    ensures logger != null ==> fresh(logger)
    ensures logger != null ==> logger.chapterFilePath == Paths.Join(a.dir, "chapters.txt")
    ensures logger != null ==> logger.State() == Log.Replay(StartState(w, world), LoggerEvents(a.calls))
  {
    var config := ConfigManager.LoadAndMergeConfigs(w.name, world.userConfig, world.shippedConfig, world.workflowConfig);
    if config.Err? {
      return Attempt([], Some(Config(config.error)), false, false, false, "", None), null;
    }
    a, logger := Launch(w, o, RunDirectory(w.name, world), config.value, world);
  }

  /** Calls none of which is a logger call. */
  predicate Quiet(calls: seq<Call>)
  {
    forall c :: c in calls ==> !c.Logger?
  }

  /** Saving a recording without a logger makes no logger call. */
  lemma TransferIsQuiet(temp: string, dir: string, webm: string, mp4: string, chapters: Option<string>,
                        io: Call -> Outcome<string>)
    ensures Quiet(Transfer(temp, dir, webm, mp4, chapters, false, io).calls)
  {
  }

  /** The recovery never calls the logger: it writes no logger files and is not finalized
      there. */
  lemma CaughtIsQuiet(name: string, a: Attempt, world: World)
    ensures Quiet(Caught(name, a, world).calls)
    ensures LoggerEvents(Caught(name, a, world).calls) == []
  {
    var salvage := if a.initialized then Salvage(name, a.dir, a.logging, world) else Reach([], None, None);
    if a.initialized && world.recovery(ClosePage).Pass? {
      var latest := LatestVideo(world.salvageVideos);
      if latest.Ok? && latest.value.Some? {
        var target := FS.GetWorkflowOutputDirectory(name, None, world.salvageStamp);
        TransferIsQuiet(Paths.Join(TempVideoDir, latest.value.value), target, WebmPath(target), Mp4Path(target),
                        ChapterFile(a.dir, a.logging), world.recovery);
      }
    }
    assert Quiet(salvage.calls);
    Silent(Caught(name, a, world).calls);
  }

  /** The recovery after a throw, when the browser is still initialized: the page is closed
      and the last recording, if any, is copied into a new run directory and converted with
      the chapter file of the logger, if any. Whatever it throws is swallowed. */
  method Recover(name: string, dir: string, logger: Log.TimecodeLogger?, world: World) returns (r: Reach)
    requires logger != null ==> logger.chapterFilePath == Paths.Join(dir, "chapters.txt")
    ensures r == Salvage(name, dir, logger != null, world)
  {
    var io := world.recovery;
    var closed := io(ClosePage);
    if closed.Fail? {
      return Reach([ClosePage], None, None);
    }
    var latest := LatestVideo(world.salvageVideos);
    if latest.Err? || latest.value.None? {
      return Reach([ClosePage, ListVideos], None, None);
    }
    var target := FS.GetWorkflowOutputDirectory(name, None, world.salvageStamp);
    var made := io(MakeDirectory(target));
    if made.Fail? {
      return Reach([ClosePage, ListVideos, MakeDirectory(target)], None, None);
    }
    var chapters := if logger != null then Some(logger.chapterFilePath) else None;
    var t := CopyAndConvert(Paths.Join(TempVideoDir, latest.value.value), target, WebmPath(target), Mp4Path(target),
                            chapters, null, io);
    r := Reach([ClosePage, ListVideos, MakeDirectory(target)] + t.calls, None, t.videoPath);
  }

  /** The logger's finalization, if there is a logger, after the calls `done`. */
  method Conclude(logger: Log.TimecodeLogger?, duration: int, completedIso: string, ghost s0: Log.LoggerState,
                  done: seq<Call>) returns (calls: seq<Call>)
    requires logger != null ==> logger.State() == Log.Replay(s0, LoggerEvents(done))
    modifies logger
    ensures calls == done + Note(logger != null, Log.Finalized(duration, completedIso))
    ensures logger != null ==> logger.State() == Log.Replay(s0, LoggerEvents(calls))
  {
    if logger == null {
      return done;
    }
    logger.Finalize(duration, completedIso);
    LogStep(s0, done, Logger(Log.Finalized(duration, completedIso)));
    calls := done + [Logger(Log.Finalized(duration, completedIso))];
  }

  /** The `catch` block of a run before the finalization. */
  method Catch(name: string, a: Attempt, logger: Log.TimecodeLogger?, world: World) returns (r: Reach)
    requires a.logging == (logger != null)
    requires logger != null ==> logger.chapterFilePath == Paths.Join(a.dir, "chapters.txt")
    ensures r == Caught(name, a, world)
  {
    var salvage := Reach([], None, None);
    if a.initialized {
      salvage := Recover(name, a.dir, logger, world);
    }
    var close := if a.browser then [CloseBrowser] else [];
    r := Reach(salvage.calls + close, None, if salvage.videoPath.Some? then salvage.videoPath else a.videoPath);
  }

  /** `executeWorkflow(workflow, options)`: the main block; on a throw, the `catch` block;
      then the duration, the logger's finalization and the result. The logger the run
      created, if any, is returned with it. */
  method ExecuteWorkflow(w: Workflow, o: ExecuteOptions, world: World)
    returns (result: ExecutionResult, calls: seq<Call>, logger: Log.TimecodeLogger?)
    ensures Report(result, calls) == RunWorkflow(w, o, world)
    ensures (logger != null) == TryBlock(w, o, world).logging
    ensures logger != null ==> fresh(logger)
    ensures logger != null ==> logger.State() == Log.Replay(StartState(w, world), LoggerEvents(calls))
  {
    var startTime := world.clock(RunStart);
    var a;
    a, logger := MainBlock(w, o, world);
    ghost var s0 := StartState(w, world);
    calls := a.calls;
    var video := a.videoPath;
    if a.thrown.Some? {
      var caught := Catch(w.name, a, logger, world);
      CaughtIsQuiet(w.name, a, world);
      LogChain(s0, calls, caught.calls);
      calls := calls + caught.calls;
      video := caught.videoPath;
    }
    var duration := world.clock(RunEnd) - startTime;
    assert duration == RunDuration(world);
    calls := Conclude(logger, duration, world.completedIso, s0, calls);
    if a.thrown.None? {
      result := ExecutionResult(true, video, Some(a.dir), None, Some(duration));
    } else {
      result := ExecutionResult(false, video, None, a.thrown, Some(duration));
    }
  }
}
