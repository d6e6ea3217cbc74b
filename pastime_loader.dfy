/**
 * `Pastime.SceneLoader.SceneGroupLoader` and `Pastime.SceneLoader.SceneLoader`:
 * loading a scene group, with the single-flight guard, the group history and
 * the `OnSceneGroupLoaded` event.
 *
 * `LoadScenes` is awaited in the source; here it runs to the point where it
 * would wait for ever when the observations of the engine run out, and the
 * outcome says which wait that was.
 */
module PastimeLoader {
  import opened SceneEngine
  import opened OperationGroup
  import opened GroupLoading
  import opened LoadGuard
  import opened PastimeScenes
  import opened LoadingProgress

  class SceneGroupLoader {
    var activeSceneGroup: Option<SceneGroup>
    const bootSceneName: string

    constructor (bootSceneName: string)
      ensures this.bootSceneName == bootSceneName && activeSceneGroup == None
    {
      this.bootSceneName := bootSceneName;
      activeSceneGroup := None;
    }

    /**
     * `LoadScenes`: remember the group, snapshot the scene names, unload the
     * other loaded scenes and wait, request the group's scenes that are not
     * in the snapshot (all of them with `reloadDuplicateScenes`), poll with
     * deferred activation, then activate the first flagged scene.
     */
    method LoadScenes(engine: SceneManager, group: SceneGroup, reloadDuplicateScenes: bool,
                      unloadObs: seq<seq<Status>>, loadObs: seq<seq<Status>>)
      returns (reports: seq<real>, outcome: LoadOutcome)
      modifies this`activeSceneGroup, engine`calls
      ensures activeSceneGroup == Some(group)
      ensures LoadRun(engine.scenes, engine.unloadRefused, bootSceneName,
                      Requested(old(SceneNames(group.scenes)), old(SceneNames(group.scenes)), Snapshot(engine.scenes), reloadDuplicateScenes),
                      ActivationCalls(ActiveFlags(group.scenes), old(StoredPaths(group.scenes))),
                      unloadObs, loadObs, reports, outcome, old(engine.calls), engine.calls)
    {
      var names := SceneNames(group.scenes);
      var paths := StoredPaths(group.scenes);
      activeSceneGroup := Some(group);
      var loadedScenes := Snapshot(engine.scenes);
      var unloaded := UnloadScenes(engine, bootSceneName, unloadObs);
      if !unloaded {
        reports, outcome := [], StuckUnloading;
        return;
      }
      var batch := RequestLoads(engine, names, loadedScenes, reloadDuplicateScenes);
      var finished;
      ghost var awaited;
      reports, finished, awaited := PollLoading(batch, loadObs);
      if !finished {
        outcome := StuckLoading;
        return;
      }
      ActivateFirst(engine, ActiveFlags(group.scenes), paths);
      outcome := Completed;
      // the post-load delay of `loadingDelay` seconds is an abstract wait
    }
  }

  /**
   * A run of the group loader `loader` on `group` as the orchestrator makes
   * it, without reloading duplicates: `names` and `paths` are the entries'
   * scene names and stored paths when the run started.
   */
  ghost predicate GroupRun(engine: SceneManager, loader: SceneGroupLoader, group: SceneGroup,
                           names: seq<string>, paths: seq<string>, unloadObs: seq<seq<Status>>,
                           loadObs: seq<seq<Status>>, reports: seq<real>, outcome: LoadOutcome,
                           calls0: seq<Call>, calls: seq<Call>)
    requires |paths| == |group.scenes|
  {
    LoadRun(engine.scenes, engine.unloadRefused, loader.bootSceneName,
            Requested(names, names, Snapshot(engine.scenes), false),
            ActivationCalls(ActiveFlags(group.scenes), paths), unloadObs, loadObs, reports, outcome, calls0, calls)
  }

  /** An `OnSceneGroupLoaded` invocation, with the loader's state as the subscriber sees it. */
  datatype Notification = Notification(group: SceneGroup, current: Option<SceneGroup>, isLoading: bool)

  class SceneLoader {
    var isLoading: bool
    var current: Option<SceneGroup>
    var previous: Option<SceneGroup>
    /** `OnSceneGroupLoaded` invocations, oldest first. */
    var notifications: seq<Notification>
    /** Messages passed to `Debug.LogError`. */
    var errors: seq<string>
    /** Calls made to the loading-screen player. */
    var screen: seq<ScreenEvent>
    const loader: SceneGroupLoader

    /** `Awake`: the group loader gets the persistent scene's name; an empty name is logged as an error. */
    constructor Awake(persistentScene: SceneReference)
      ensures fresh(loader) && loader.activeSceneGroup == None
      ensures loader.bootSceneName == persistentScene.SceneName()
      ensures errors == if persistentScene.SceneName() == "" then [BootNameMissing] else []
      ensures !isLoading && current == None && previous == None && notifications == [] && screen == []
    {
      loader := new SceneGroupLoader(persistentScene.SceneName());
      isLoading, current, previous := false, None, None;
      notifications, screen := [], [];
      errors := if persistentScene.SceneName() == "" then [BootNameMissing] else [];
    }

    function Groups(): History<SceneGroup>
      reads this`current, this`previous
    {
      History(current, previous)
    }

    /** The first phase of `LoadSceneGroup`: the single-flight guard and the empty-group check. */
    method Begin(group: SceneGroup) returns (admission: Admission)
      modifies this`isLoading, this`errors
      ensures admission == Admit(old(isLoading), |group.scenes|)
      ensures admission == Rejected ==> isLoading && errors == old(errors)
      ensures admission == EmptyGroup ==> !isLoading && errors == old(errors) + [EmptyGroupError(group.name)]
      ensures admission == Started ==> isLoading && errors == old(errors)
    {
      if isLoading {
        return Rejected;
      }
      isLoading := true;
      if |group.scenes| > 0 {
        admission := Started;
      } else {
        errors := errors + [EmptyGroupError(group.name)];
        isLoading := false;
        admission := EmptyGroup;
      }
    }

    /**
     * The last phase of a successful `LoadSceneGroup`: the history moves on,
     * the event fires with the new current group while the load still counts
     * as running, and the guard is released.
     */
    method Finish(group: SceneGroup)
      requires isLoading
      modifies this`current, this`previous, this`notifications, this`isLoading
      ensures Groups() == AfterLoad(old(Groups()), group)
      ensures notifications == old(notifications) + [Notification(group, Some(group), true)]
      ensures !isLoading
    {
      if current != None {
        previous := current;
      }
      current := Some(group);
      notifications := notifications + [Notification(group, current, isLoading)];
      isLoading := false;
    }

    /**
     * The middle of a started `LoadSceneGroup`: the loading screen around the
     * group loader, which is never asked to reload duplicates. Only the
     * screen, the group loader and what the group loader changes are touched.
     */
    method Run(engine: SceneManager, group: SceneGroup, unloadObs: seq<seq<Status>>, loadObs: seq<seq<Status>>)
      returns (outcome: LoadOutcome, reports: seq<real>)
      modifies this`screen, loader`activeSceneGroup, engine`calls
      ensures loader.activeSceneGroup == Some(group)
      ensures GroupRun(engine, loader, group, old(SceneNames(group.scenes)), old(StoredPaths(group.scenes)),
                       unloadObs, loadObs, reports, outcome, old(engine.calls), engine.calls)
      ensures screen == old(screen) + ScreenCalls(group.loadingProfile, reports, outcome == Completed)
    {
      ghost var screen0 := screen;
      ghost var names, paths := SceneNames(group.scenes), StoredPaths(group.scenes);
      ShowStart(group);
      outcome, reports := RunLoader(engine, group, names, paths, unloadObs, loadObs);
      ShowRest(group, reports, outcome == Completed, screen0);
    }

    /** The loading screen is played before the group loader starts, when the group has a profile. */
    method ShowStart(group: SceneGroup)
      modifies this`screen
      ensures screen == old(screen) + if group.UseLoadingScreen() then [Play(group.loadingProfile.value)] else []
    {
      if group.UseLoadingScreen() {
        screen := screen + [Play(group.loadingProfile.value)];
      }
    }

    /**
     * The loading screen after the group loader's run: it has shown every
     * progress report and, once the load completed, is stopped. With the
     * start, these are all of the load's screen calls.
     */
    method ShowRest(group: SceneGroup, reports: seq<real>, completed: bool, ghost before: seq<ScreenEvent>)
      requires screen == before + if group.UseLoadingScreen() then [Play(group.loadingProfile.value)] else []
      modifies this`screen
      ensures screen == before + ScreenCalls(group.loadingProfile, reports, completed)
    {
      ScreenCallsSplit(group.loadingProfile, reports, completed);
      if group.UseLoadingScreen() {
        var rest := ShownProgress(reports) + if completed then [Stop] else [];
        screen := screen + rest;
        AppendAssociative(before, [Play(group.loadingProfile.value)], rest);
      }
    }

    /** The group loader's run, seen from the orchestrator: only the loader and the engine change. */
    method RunLoader(engine: SceneManager, group: SceneGroup, ghost names: seq<string>, ghost paths: seq<string>,
                     unloadObs: seq<seq<Status>>, loadObs: seq<seq<Status>>)
      returns (outcome: LoadOutcome, reports: seq<real>)
      requires names == SceneNames(group.scenes) && paths == StoredPaths(group.scenes)
      modifies loader`activeSceneGroup, engine`calls
      ensures loader.activeSceneGroup == Some(group)
      ensures GroupRun(engine, loader, group, names, paths, unloadObs, loadObs, reports, outcome, old(engine.calls), engine.calls)
    {
      reports, outcome := loader.LoadScenes(engine, group, false, unloadObs, loadObs);
    }

    /** `LoadSceneGroup`: both phases around the loading screen and the group loader. */
    method LoadSceneGroup(engine: SceneManager, group: SceneGroup, unloadObs: seq<seq<Status>>, loadObs: seq<seq<Status>>)
      returns (admission: Admission, outcome: Option<LoadOutcome>, reports: seq<real>)
      modifies this`isLoading, this`errors, this`screen, this`current, this`previous, this`notifications
      modifies loader`activeSceneGroup, engine`calls
      ensures admission == Admit(old(isLoading), |group.scenes|)
      ensures admission != Started ==>
        outcome == None && Groups() == old(Groups()) && notifications == old(notifications)
        && screen == old(screen) && engine.calls == old(engine.calls)
        && loader.activeSceneGroup == old(loader.activeSceneGroup)
      ensures admission == Rejected ==> isLoading && errors == old(errors)
      ensures admission == EmptyGroup ==> !isLoading && errors == old(errors) + [EmptyGroupError(group.name)]
      ensures admission == Started ==>
        outcome.Some? && loader.activeSceneGroup == Some(group) && errors == old(errors)
        && screen == old(screen) + ScreenCalls(group.loadingProfile, reports, outcome == Some(Completed))
      ensures admission == Started ==>
        outcome.Some? && GroupRun(engine, loader, group, old(SceneNames(group.scenes)), old(StoredPaths(group.scenes)),
                                  unloadObs, loadObs, reports, outcome.value, old(engine.calls), engine.calls)
      ensures outcome == Some(Completed) ==>
        Groups() == AfterLoad(old(Groups()), group) && !isLoading
        && notifications == old(notifications) + [Notification(group, Some(group), true)]
      ensures admission == Started && outcome != Some(Completed) ==>
        isLoading && Groups() == old(Groups()) && notifications == old(notifications)
    {
      ghost var names, paths := SceneNames(group.scenes), StoredPaths(group.scenes);
      admission := Begin(group);
      assert SceneNames(group.scenes) == names && StoredPaths(group.scenes) == paths;
      if admission != Started {
        return admission, None, [];
      }
      var result;
      result, reports := Proceed(engine, group, names, paths, unloadObs, loadObs);
      outcome := Some(result);
    }

    /**
     * The second phase of a started `LoadSceneGroup`: the run under the
     * loading screen, then, once it completed, the history, the event and
     * the guard; otherwise the load is still awaiting the engine and the
     * guard stays set.
     */
    method Proceed(engine: SceneManager, group: SceneGroup, ghost names: seq<string>, ghost paths: seq<string>,
                   unloadObs: seq<seq<Status>>, loadObs: seq<seq<Status>>)
      returns (result: LoadOutcome, reports: seq<real>)
      requires isLoading && names == SceneNames(group.scenes) && paths == StoredPaths(group.scenes)
      modifies this`screen, this`current, this`previous, this`notifications, this`isLoading
      modifies loader`activeSceneGroup, engine`calls
      ensures loader.activeSceneGroup == Some(group)
      ensures GroupRun(engine, loader, group, names, paths, unloadObs, loadObs, reports, result, old(engine.calls), engine.calls)
      ensures screen == old(screen) + ScreenCalls(group.loadingProfile, reports, result == Completed)
      ensures result == Completed ==>
        Groups() == AfterLoad(old(Groups()), group) && !isLoading
        && notifications == old(notifications) + [Notification(group, Some(group), true)]
      ensures result != Completed ==> isLoading && Groups() == old(Groups()) && notifications == old(notifications)
    {
      result, reports := Run(engine, group, unloadObs, loadObs);
      if result == Completed {
        Finish(group);
      }
    }

  }

  /**
   * A second call made while a load is between its two phases is dropped:
   * it changes neither the guard, nor the history, nor the log, nor the
   * event list.
   */
  method OverlappingCallIsDropped(sl: SceneLoader, first: SceneGroup, second: SceneGroup)
    returns (a1: Admission, a2: Admission)
    requires !sl.isLoading && |first.scenes| > 0
    modifies sl
    ensures a1 == Started && a2 == Rejected
    ensures sl.isLoading && sl.Groups() == old(sl.Groups())
    ensures sl.errors == old(sl.errors) && sl.notifications == old(sl.notifications)
  {
    a1 := sl.Begin(first);
    a2 := sl.Begin(second);
  }
}
