/** What a run of `executeWorkflow` promises, over the traces of the workflow manager's model:
    the actions run strictly in order up to the first that fails, the logger exists only when
    recording and is finalized exactly once, at the very end, and the recording of a failed run
    is converted before the logger has written its chapter file. */
module WorkflowRuns {
  import opened Wrappers
  import opened Actions
  import opened Errors
  import opened WorkflowTypes
  import opened Execution
  import opened WorkflowManager
  import opened Text
  import Registry
  import Log = TimecodeLogger
  import FS = FileSystem
  import Paths

  /** None of the calls executes an action. */
  predicate Unexecuting(calls: seq<Call>)
  {
    forall c :: c in calls ==> !c.Executed?
  }

  lemma {:induction false} NothingExecuted(calls: seq<Call>)
    requires Unexecuting(calls)
    ensures ExecutedIndices(calls) == []
    decreases |calls|
  {
    if |calls| > 0 {
      assert calls[|calls| - 1] in calls;
      assert forall c :: c in calls[..|calls| - 1] ==> c in calls;
      NothingExecuted(calls[..|calls| - 1]);
    }
  }

  /** Saving a recording executes no action. */
  lemma TransferExecutesNothing(temp: string, dir: string, webm: string, mp4: string, chapters: Option<string>,
                                generate: bool, io: Call -> Outcome<string>)
    ensures Unexecuting(Transfer(temp, dir, webm, mp4, chapters, generate, io).calls)
  {
  }

  /** Saving the recording executes no action. */
  lemma SaveVideoExecutesNothing(dir: string, logging: bool, world: World)
    ensures Unexecuting(SaveVideo(dir, logging, world).calls)
  {
    var latest := LatestVideo(world.tempVideos);
    if latest.Ok? && latest.value.Some? {
      TransferExecutesNothing(Paths.Join(TempVideoDir, latest.value.value), dir, WebmPath(dir), Mp4Path(dir),
                              ChapterFile(dir, logging), logging, world.io);
    }
  }

  /** The end of the wrap-up adds no executed action to the saving of the video. */
  lemma ShutdownExecutesNothing(o: ExecuteOptions, dir: string, video: Reach, world: World)
    requires Unexecuting(video.calls)
    ensures Unexecuting(Shutdown(o, dir, video, world).calls)
  {
  }

  /** The wrap-up after the last action executes no action. */
  lemma WrapupExecutesNothing(o: ExecuteOptions, dir: string, world: World)
    ensures ExecutedIndices(Wrapup(o, dir, world).calls) == []
  {
    var video := KeptVideo(o, dir, world);
    SaveVideoExecutesNothing(dir, true, world);
    ShutdownExecutesNothing(o, dir, video, world);
    NothingExecuted(Wrapup(o, dir, world).calls);
  }

  /** The `catch` block executes no action. */
  lemma CaughtExecutesNothing(name: string, a: Attempt, world: World)
    ensures ExecutedIndices(Caught(name, a, world).calls) == []
  {
    if a.initialized && world.recovery(ClosePage).Pass? {
      var latest := LatestVideo(world.salvageVideos);
      if latest.Ok? && latest.value.Some? {
        var target := FS.GetWorkflowOutputDirectory(name, None, world.salvageStamp);
        TransferExecutesNothing(Paths.Join(TempVideoDir, latest.value.value), target, WebmPath(target), Mp4Path(target),
                                ChapterFile(a.dir, a.logging), false, world.recovery);
      }
    }
    assert Unexecuting(Caught(name, a, world).calls);
    NothingExecuted(Caught(name, a, world).calls);
  }

  /** Each round of a run executes its own action. */
  lemma RunRoundsExecuteOne(w: Workflow, o: ExecuteOptions, dir: string, world: World)
    ensures forall j :: 0 <= j < |w.actions| ==> ExecutedIndices(RunRounds(w, o, dir, world)(j).calls) == [j]
    ensures forall j :: 0 <= j < |w.actions| ==>
      (RunRounds(w, o, dir, world)(j).thrown.None? <==> Succeeds(w, j, dir, world))
  {
    forall j | 0 <= j < |w.actions|
      ensures ExecutedIndices(RunRounds(w, o, dir, world)(j).calls) == [j]
      ensures RunRounds(w, o, dir, world)(j).thrown.None? <==> Succeeds(w, j, dir, world)
    {
      RoundExecutesOne(w.actions, j, Registry.WithStandard(map[]), ActionContext(Some(dir)), Recording(o), world);
    }
  }

  /** The protocol of round `i` of the action loop: the action is passed to the logger right
      before it is executed; when its handler succeeds, the completion is logged with that
      index and the duration measured around the execution, and the pause follows; when the
      handler fails, the error is logged and the handler's error is thrown, and no
      completion and no pause happen. */
  lemma RoundProtocol(actions: seq<Action>, i: nat, handlers: map<string, Handler>, context: ActionContext,
                      logging: bool, world: World)
    requires i < |actions|
    ensures var r := Round(actions, i, handlers, context, logging, world);
      if logging then |r.calls| >= 2 && r.calls[0] == Logger(Log.Logged(actions[i], world.clock(ActionLogged(i))))
                      && r.calls[1] == Executed(i)
      else |r.calls| >= 1 && r.calls[0] == Executed(i)
    ensures var r := Round(actions, i, handlers, context, logging, world);
      forall c :: c in r.calls && c.Logger? && c.event.Completed? ==>
        Dispatch(handlers, context, actions[i], ThePage, i, world.run).Pass?
        && c.event.index == i && c.event.duration == world.clock(ActionEnd(i)) - world.clock(ActionStart(i))
    ensures var r := Round(actions, i, handlers, context, logging, world);
      Dispatch(handlers, context, actions[i], ThePage, i, world.run).Pass? ==>
        Pause(i, PauseAfterAction) in r.calls
        && (logging ==> Logger(Log.Completed(i, world.clock(ActionEnd(i)) - world.clock(ActionStart(i)),
                                             world.clock(CompletionLogged(i)))) in r.calls)
    ensures var r := Round(actions, i, handlers, context, logging, world);
      var d := Dispatch(handlers, context, actions[i], ThePage, i, world.run);
      d.Fail? ==>
        r.thrown == Some(Execution(d.error)) && Pause(i, PauseAfterAction) !in r.calls
        && (logging ==> Logger(Log.Errored(actions[i], d.error.message, world.clock(ErrorLogged(i)))) in r.calls)
  {
    var a := actions[i];
    var d := Dispatch(handlers, context, a, ThePage, i, world.run);
    var start := world.clock(ActionStart(i));
    var open := Opening(a, i, logging, world);
    assert Round(actions, i, handlers, context, logging, world) == After(open, Closing(a, i, d, start, logging, world));
    ClosingProtocol(a, i, d, start, logging, world);
    assert forall c :: c in open ==> !(c.Logger? && c.event.Completed?) && c != Pause(i, PauseAfterAction);
  }

  /** The end of a round logs a completion only after a handler that succeeded, with the
      duration measured from `start`, and then pauses; after a failed handler it logs the
      error and throws it, without a pause. */
  lemma ClosingProtocol(a: Action, i: nat, r: Outcome<ExecutionError>, start: int, logging: bool, world: World)
    ensures var s := Closing(a, i, r, start, logging, world);
      forall c :: c in s.calls && c.Logger? && c.event.Completed? ==>
        r.Pass? && c.event.index == i && c.event.duration == ActionDuration(world, i, start)
    ensures var s := Closing(a, i, r, start, logging, world);
      r.Pass? ==>
        Pause(i, PauseAfterAction) in s.calls
        && (logging ==> Logger(Log.Completed(i, ActionDuration(world, i, start), world.clock(CompletionLogged(i)))) in s.calls)
    ensures var s := Closing(a, i, r, start, logging, world);
      r.Fail? ==>
        s.thrown == Some(Execution(r.error)) && Pause(i, PauseAfterAction) !in s.calls
        && (logging ==> Logger(Log.Errored(a, r.error.message, world.clock(ErrorLogged(i)))) in s.calls)
  {
  }

  /** What a round of a run throws: the execution error of its own action, whose dispatch
      failed, or the failure of the pause after it. */
  lemma RoundThrows(w: Workflow, o: ExecuteOptions, dir: string, world: World, j: nat)
    requires j < |w.actions|
    requires RunRounds(w, o, dir, world)(j).thrown.Some?
    ensures RunRounds(w, o, dir, world)(j).thrown.value.Execution? || RunRounds(w, o, dir, world)(j).thrown.value.Other?
    ensures RunRounds(w, o, dir, world)(j).thrown.value.Execution? ==>
      var e := RunRounds(w, o, dir, world)(j).thrown.value.execution;
      e.actionIndex == j && e.action == w.actions[j]
      && Dispatch(Registry.WithStandard(map[]), ActionContext(Some(dir)), w.actions[j], ThePage, j, world.run) == Fail(e)
  {
  }

  /** The actions of a run, once the browser runs, are executed strictly in index order, each
      exactly once, up to and including the first that throws, and the wrap-up executes
      none. */
  lemma DrivenRunsInOrder(w: Workflow, o: ExecuteOptions, dir: string, setup: seq<Call>, world: World)
    requires ExecutedIndices(setup) == []
    ensures var round := RunRounds(w, o, dir, world);
      ExecutedIndices(Driven(w, o, dir, setup, world).calls) == Range(0, Ran(|w.actions|, 0, round))
  {
    var n := |w.actions|;
    var round := RunRounds(w, o, dir, world);
    RunRoundsExecuteOne(w, o, dir, world);
    LoopRunsInOrder(n, 0, round, setup);
    var loop := Loop(n, 0, round, setup);
    if loop.thrown.None? {
      WrapupExecutesNothing(o, dir, world);
      ExecutedIndicesAppend(loop.calls, Wrapup(o, dir, world).calls);
      assert ExecutedIndices(loop.calls) + [] == ExecutedIndices(loop.calls);
    }
  }

  /** The rounds before the halting one succeed; the halting one, if any, fails and its error
      is what the main block throws; without one, the main block throws what the wrap-up
      throws. */
  lemma DrivenHalts(w: Workflow, o: ExecuteOptions, dir: string, setup: seq<Call>, world: World)
    ensures var h := Halt(|w.actions|, 0, RunRounds(w, o, dir, world));
      forall j :: 0 <= j < h ==> Succeeds(w, j, dir, world)
    ensures var h := Halt(|w.actions|, 0, RunRounds(w, o, dir, world));
      h < |w.actions| ==> (!Succeeds(w, h, dir, world)
                           && Driven(w, o, dir, setup, world).thrown == RunRounds(w, o, dir, world)(h).thrown)
    ensures var h := Halt(|w.actions|, 0, RunRounds(w, o, dir, world));
      h == |w.actions| ==> Driven(w, o, dir, setup, world).thrown == Wrapup(o, dir, world).thrown
  {
    var n := |w.actions|;
    var round := RunRounds(w, o, dir, world);
    RunRoundsExecuteOne(w, o, dir, world);
    LoopRunsInOrder(n, 0, round, setup);
    BeforeHaltGoesOn(n, 0, round);
  }

  lemma {:induction false} RangeLength(from: nat, to: nat)
    requires from <= to
    ensures |Range(from, to)| == to - from
    decreases (to - from) as int
  {
    if from < to {
      RangeLength(from + 1, to);
    }
  }

  /** The wrap-up throws file-system failures and browser failures, never an action's error. */
  lemma WrapupThrowsNoExecution(o: ExecuteOptions, dir: string, world: World)
    ensures Wrapup(o, dir, world).thrown.Some? ==> !Wrapup(o, dir, world).thrown.value.Execution?
  {
    var video := KeptVideo(o, dir, world);
    assert video.thrown.Some? ==> video.thrown.value.FileSystem?;
  }

  /** The main block stopped at `a` after executing actions `0` to `k - 1` in order, `k` being
      the number of actions it executed: every one of them but the last completed, all of them
      when the block did not throw, and an action's error it throws is that of the last. */
  predicate RanInOrder(w: Workflow, dir: string, world: World, calls: seq<Call>, thrown: Option<Failure>)
  {
    var k := |ExecutedIndices(calls)|;
    k <= |w.actions| && ExecutedIndices(calls) == Range(0, k)
    && (forall j :: 0 <= j < k - 1 ==> Succeeds(w, j, dir, world))
    && (thrown.None? ==> k == |w.actions| && forall j :: 0 <= j < k ==> Succeeds(w, j, dir, world))
    && (thrown.Some? && thrown.value.Execution? ==>
          0 < k && FailedAt(w, k - 1, dir, world, thrown.value.execution))
  }

  /** Action `j` of a run in `dir` was dispatched and failed with `e`. */
  predicate FailedAt(w: Workflow, j: nat, dir: string, world: World, e: ExecutionError)
    requires j < |w.actions|
  {
    e.actionIndex == j && e.action == w.actions[j]
    && Dispatch(Registry.WithStandard(map[]), ActionContext(Some(dir)), w.actions[j], ThePage, j, world.run) == Fail(e)
  }

  lemma DrivenInOrder(w: Workflow, o: ExecuteOptions, dir: string, setup: seq<Call>, world: World)
    requires ExecutedIndices(setup) == []
    ensures var a := Driven(w, o, dir, setup, world); RanInOrder(w, dir, world, a.calls, a.thrown)
  {
    var n := |w.actions|;
    var round := RunRounds(w, o, dir, world);
    var h := Halt(n, 0, round);
    DrivenRunsInOrder(w, o, dir, setup, world);
    DrivenHalts(w, o, dir, setup, world);
    RangeLength(0, Ran(n, 0, round));
    if h < n && round(h).thrown.Some? {
      RoundThrows(w, o, dir, world, h);
    }
    WrapupThrowsNoExecution(o, dir, world);
  }

  /** A stretch that stopped before any action ran, on a failure that is not an action's,
      ran in order trivially. */
  lemma StoppedEarly(w: Workflow, dir: string, world: World, a: Attempt)
    requires Unexecuting(a.calls)
    requires a.thrown.Some? && !a.thrown.value.Execution?
    ensures RanInOrder(w, dir, world, a.calls, a.thrown)
  {
    NothingExecuted(a.calls);
    assert Range(0, 0) == [];
  }

  /** Launching the browser executes no action: a failed launch stops the main block before
      the actions. */
  lemma BrowsingInOrder(w: Workflow, o: ExecuteOptions, dir: string, setup: seq<Call>, world: World)
    requires Unexecuting(setup)
    ensures var a := Browsing(w, o, dir, setup, world); RanInOrder(w, dir, world, a.calls, a.thrown)
  {
    NothingExecuted(setup);
    if world.io(LaunchBrowser).Pass? {
      DrivenInOrder(w, o, dir, setup, world);
    } else {
      StoppedEarly(w, dir, world, Browsing(w, o, dir, setup, world));
    }
  }

  /** A run directory that cannot be created stops the main block before the actions. */
  lemma NoRunDirectory(w: Workflow, o: ExecuteOptions, dir: string, world: World)
    requires FS.Single(FS.CreateDirectory, dir, world.io(MakeDirectory(dir))).Fail?
    ensures var a := Started(w, o, dir, world); RanInOrder(w, dir, world, a.calls, a.thrown)
  {
    var e := FS.Single(FS.CreateDirectory, dir, world.io(MakeDirectory(dir))).error;
    var a := Attempt([MakeDirectory(dir)], Some(Failure.FileSystem(e)), false, false, false, dir, None);
    assert Started(w, o, dir, world) == a;
    assert Unexecuting(a.calls);
    StoppedEarly(w, dir, world, a);
  }

  /** So does a `screenshots` sub-directory that cannot be created. */
  lemma NoShotsDirectory(w: Workflow, o: ExecuteOptions, dir: string, world: World)
    requires FS.Single(FS.CreateDirectory, dir, world.io(MakeDirectory(dir))).Pass?
    requires FS.Single(FS.CreateDirectory, Paths.Join(dir, "screenshots"),
                       world.io(MakeDirectory(Paths.Join(dir, "screenshots")))).Fail?
    ensures var a := Started(w, o, dir, world); RanInOrder(w, dir, world, a.calls, a.thrown)
  {
    var shots := Paths.Join(dir, "screenshots");
    var e := FS.Single(FS.CreateDirectory, shots, world.io(MakeDirectory(shots))).error;
    var a := Attempt([MakeDirectory(dir), MakeDirectory(shots)], Some(Failure.FileSystem(e)), false, false, false, dir, None);
    assert Started(w, o, dir, world) == a;
    assert Unexecuting(a.calls);
    StoppedEarly(w, dir, world, a);
  }

  /** Before the browser runs, the main block executes no action and throws no action's
      error. */
  lemma StartedInOrder(w: Workflow, o: ExecuteOptions, dir: string, world: World)
    ensures var a := Started(w, o, dir, world); RanInOrder(w, dir, world, a.calls, a.thrown)
  {
    var shots := Paths.Join(dir, "screenshots");
    if FS.Single(FS.CreateDirectory, dir, world.io(MakeDirectory(dir))).Fail? {
      NoRunDirectory(w, o, dir, world);
    } else if FS.Single(FS.CreateDirectory, shots, world.io(MakeDirectory(shots))).Fail? {
      NoShotsDirectory(w, o, dir, world);
    } else {
      var setup := [MakeDirectory(dir), MakeDirectory(shots), LaunchBrowser];
      assert Started(w, o, dir, world) == Browsing(w, o, dir, setup, world);
      BrowsingInOrder(w, o, dir, setup, world);
    }
  }

  /** The main block of a run executes its actions in order: a configuration that does not
      load stops it before anything runs. */
  lemma TryBlockInOrder(w: Workflow, o: ExecuteOptions, world: World)
    ensures var a := TryBlock(w, o, world); RanInOrder(w, RunDirectory(w.name, world), world, a.calls, a.thrown)
  {
    var dir := RunDirectory(w.name, world);
    if MergedConfig(w, world).Err? {
      StoppedEarly(w, dir, world, TryBlock(w, o, world));
    } else {
      StartedInOrder(w, o, dir, world);
    }
  }

  /** `executeWorkflow` executes the workflow's actions strictly in index order, each at most
      once, and stops at the first that throws: it reports success exactly when every action
      and the pause after it completed, and when it reports an action's error, that is the
      error of the last action executed, whose handler failed, while every earlier one
      completed. The recovery and the finalization execute no action. */
  lemma ActionsRunInOrder(w: Workflow, o: ExecuteOptions, world: World)
    ensures var r := RunWorkflow(w, o, world);
      RanInOrder(w, RunDirectory(w.name, world), world, r.calls, r.result.error)
    ensures var r := RunWorkflow(w, o, world); r.result.success <==> r.result.error.None?
  {
    var a := TryBlock(w, o, world);
    var r := RunWorkflow(w, o, world);
    TryBlockInOrder(w, o, world);
    RunTrace(w, o, world);
    AfterMainExecutesNothing(w.name, a, world);
    InOrderAfter(w, RunDirectory(w.name, world), world, a.calls, AfterMain(w.name, a, world), a.thrown, r.calls, r.result.error);
  }

  /** What a run does after its main block stopped at `a`: the `catch` block if it threw, then
      the finalization. */
  function AfterMain(name: string, a: Attempt, world: World): seq<Call>
  {
    (if a.thrown.None? then [] else Caught(name, a, world).calls)
    + Note(a.logging, Log.Finalized(RunDuration(world), world.completedIso))
  }

  /** A run is its main block followed by what comes after it, and reports what the main block
      threw. */
  lemma RunTrace(w: Workflow, o: ExecuteOptions, world: World)
    ensures var a := TryBlock(w, o, world); var r := RunWorkflow(w, o, world);
      r.calls == a.calls + AfterMain(w.name, a, world) && r.result.error == a.thrown
      && (r.result.success <==> a.thrown.None?)
  {
    ReportedTrace(w.name, TryBlock(w, o, world), world);
  }

  /** The same, for a main block that stopped at any `a`. */
  lemma ReportedTrace(name: string, a: Attempt, world: World)
    ensures var r := Reported(name, a, world);
      r.calls == a.calls + AfterMain(name, a, world) && r.result.error == a.thrown
      && (r.result.success <==> a.thrown.None?)
  {
  }

  /** Nothing after the main block executes an action. */
  lemma AfterMainExecutesNothing(name: string, a: Attempt, world: World)
    ensures ExecutedIndices(AfterMain(name, a, world)) == []
  {
    var finish := Note(a.logging, Log.Finalized(RunDuration(world), world.completedIso));
    NoteExecutesNothing(a.logging, Log.Finalized(RunDuration(world), world.completedIso));
    CaughtExecutesNothing(name, a, world);
    if a.thrown.None? {
      assert AfterMain(name, a, world) == finish;
    } else {
      ExecutedIndicesAppend(Caught(name, a, world).calls, finish);
    }
  }

  /** The trace of a successful run: the main block, which threw nothing, then the
      finalization. */
  lemma SuccessTrace(w: Workflow, o: ExecuteOptions, world: World)
    requires RunWorkflow(w, o, world).result.success
    ensures TryBlock(w, o, world).thrown.None? && RunWorkflow(w, o, world).result.error.None?
    ensures RunWorkflow(w, o, world).calls
         == TryBlock(w, o, world).calls + Note(TryBlock(w, o, world).logging, Log.Finalized(RunDuration(world), world.completedIso))
  {
  }

  /** The trace of a failed run: the main block, which threw what the run reports, then the
      `catch` block, then the finalization. */
  lemma FailureTrace(w: Workflow, o: ExecuteOptions, world: World)
    requires RunWorkflow(w, o, world).result.error.Some?
    ensures TryBlock(w, o, world).thrown == RunWorkflow(w, o, world).result.error
    ensures var a := TryBlock(w, o, world);
      RunWorkflow(w, o, world).calls
        == a.calls + Caught(w.name, a, world).calls + Note(a.logging, Log.Finalized(RunDuration(world), world.completedIso))
  {
  }

  /** Calls that execute no action leave the order of a run's actions as it was. */
  lemma InOrderAfter(w: Workflow, dir: string, world: World, calls: seq<Call>, more: seq<Call>, thrown: Option<Failure>,
                     after: seq<Call>, reported: Option<Failure>)
    requires RanInOrder(w, dir, world, calls, thrown) && ExecutedIndices(more) == []
    requires after == calls + more && reported == thrown
    ensures RanInOrder(w, dir, world, after, reported)
  {
    ExecutedIndicesAppend(calls, more);
    assert ExecutedIndices(calls) + [] == ExecutedIndices(calls);
  }
}
