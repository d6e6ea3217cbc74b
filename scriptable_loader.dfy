/**
 * `ScriptableSceneLoader.SceneGroupLoader` and `ScriptableSceneLoader.SceneLoader`.
 *
 * The run is the same as in the other namespace except for the scene
 * entries: a load is requested by the entry's stored path, and asking an
 * entry for its name (to skip scenes already present, and again for the log
 * line) completes that stored path in place. The orchestrator has no event,
 * and the boot scene name is a plain string.
 */
module ScriptableLoader {
  import opened SceneEngine
  import opened ScenePaths
  import opened OperationGroup
  import opened GroupLoading
  import opened LoadGuard
  import opened ScriptableScenes
  import opened LoadingProgress

  /** The name `GetSceneName` gives each entry, from its stored path. */
  function NamesOf(paths: seq<string>): (names: seq<string>)
    ensures |names| == |paths|
    ensures forall i :: 0 <= i < |paths| ==> names[i] == SceneNameOf(paths[i])
  {
    seq(|paths|, i requires 0 <= i < |paths| => SceneNameOf(paths[i]))
  }

  /**
   * The paths for which a load is requested, given the entries' stored
   * paths: the completed paths, skipped by completed name.
   */
  function RequestedPaths(paths: seq<string>, snapshot: seq<string>, reload: bool): seq<string> {
    Requested(NamesOf(paths), NormalizedAll(paths), snapshot, reload)
  }

  /** At most one request per entry, and one per entry with `reload`. */
  lemma RequestedPathsCount(paths: seq<string>, snapshot: seq<string>, reload: bool)
    ensures |RequestedPaths(paths, snapshot, reload)| <= |paths|
    ensures reload ==> |RequestedPaths(paths, snapshot, reload)| == |paths|
  {
    var r := Requested(NamesOf(paths), NormalizedAll(paths), snapshot, reload);
    assert |r| <= |NormalizedAll(paths)|;
  }

  /** A path is requested exactly when it is the completion of an entry that is not skipped. */
  lemma RequestedPathsMembers(paths: seq<string>, snapshot: seq<string>, reload: bool, x: string)
    ensures x in RequestedPaths(paths, snapshot, reload) <==>
      exists i :: 0 <= i < |paths| && x == Normalized(paths[i]) && (reload || SceneNameOf(paths[i]) !in snapshot)
  {
    RequestedMembers(NamesOf(paths), NormalizedAll(paths), snapshot, reload, x);
  }

  /** With `reload` every entry is requested, completed and in order. */
  lemma RequestedPathsWithReload(paths: seq<string>, snapshot: seq<string>)
    ensures RequestedPaths(paths, snapshot, true) == NormalizedAll(paths)
  {
    RequestedWithReload(NamesOf(paths), NormalizedAll(paths), snapshot);
  }

  /**
   * The name is always taken before the load is requested, so every
   * non-empty path handed to the engine ends in `.unity`.
   */
  lemma RequestedPathsEndInUnity(paths: seq<string>, snapshot: seq<string>, reload: bool, x: string)
    requires x in RequestedPaths(paths, snapshot, reload) && x != ""
    ensures EndsWithIgnoreCase(x, SceneExtension)
  {
    RequestedPathsMembers(paths, snapshot, reload, x);
    var i :| 0 <= i < |paths| && x == Normalized(paths[i]) && (reload || SceneNameOf(paths[i]) !in snapshot);
    NormalizedShape(paths[i]);
  }

  /**
   * The entries' stored paths after a run of the group loader: untouched
   * when it stopped at the unloads, otherwise every path completed.
   */
  ghost predicate PathsAfter(outcome: LoadOutcome, before: seq<string>, after: seq<string>) {
    (outcome == StuckUnloading ==> after == before) &&
    (outcome != StuckUnloading ==> after == NormalizedAll(before))
  }

  /** Entries that occur more than once in the list were stored at the same path. */
  ghost predicate SameEntrySamePath(scenes: seq<SceneData>, paths: seq<string>) {
    |paths| == |scenes| &&
    forall j, k :: 0 <= j < |scenes| && 0 <= k < |scenes| && scenes[j] == scenes[k] ==> paths[j] == paths[k]
  }

  /**
   * The entries' stored paths part-way through the load-request loop: each
   * is its original path or the completion of it, and the first `i` are
   * completed.
   */
  ghost predicate CompletedUpTo(scenes: seq<SceneData>, paths: seq<string>, i: nat)
    reads Entries(scenes)
  {
    |paths| == |scenes| && i <= |scenes| &&
    (forall j :: 0 <= j < |scenes| ==> scenes[j].scenePath == paths[j] || scenes[j].scenePath == Normalized(paths[j])) &&
    (forall j :: 0 <= j < i ==> scenes[j].scenePath == Normalized(paths[j]))
  }

  /**
   * The load-request `foreach`: for each entry, unless `reload`, its name
   * is taken and the entry skipped when the name is in the snapshot; the
   * name is taken again for the log line, and the load is requested by the
   * (now completed) stored path. Every entry's stored path ends up completed,
   * also when the same entry appears more than once.
   */
  method RequestEntryLoads(engine: SceneManager, scenes: seq<SceneData>, snapshot: seq<string>, reload: bool)
    returns (batch: AsyncOperationGroup)
    modifies engine`calls, Entries(scenes)`scenePath
    ensures fresh(batch)
    ensures forall j :: 0 <= j < |scenes| ==> scenes[j].scenePath == Normalized(old(scenes[j].scenePath))
    ensures engine.calls == old(engine.calls) + LoadCalls(RequestedPaths(old(PathsOf(scenes)), snapshot, reload))
    ensures batch.operations == IssuedOps(|RequestedPaths(old(PathsOf(scenes)), snapshot, reload)|)
  {
    ghost var paths0 := PathsOf(scenes);
    assert SameEntrySamePath(scenes, paths0);
    ghost var req: seq<string> := [];
    batch := new AsyncOperationGroup();
    for i := 0 to |scenes|
      invariant CompletedUpTo(scenes, paths0, i)
      invariant req == RequestedPaths(paths0[..i], snapshot, reload)
      invariant engine.calls == old(engine.calls) + LoadCalls(req)
      invariant batch.operations == IssuedOps(|req|)
    {
      req := RequestNext(engine, batch, scenes, i, paths0, req, old(engine.calls), snapshot, reload);
    }
    assert paths0[..|scenes|] == paths0;
  }

  /** One iteration of the load-request loop, on the `i`-th entry. */
  method RequestNext(engine: SceneManager, batch: AsyncOperationGroup, scenes: seq<SceneData>, i: nat,
                     ghost paths0: seq<string>, ghost req: seq<string>, ghost calls0: seq<Call>,
                     snapshot: seq<string>, reload: bool)
    returns (ghost req': seq<string>)
    requires i < |scenes| && SameEntrySamePath(scenes, paths0) && CompletedUpTo(scenes, paths0, i)
    requires req == RequestedPaths(paths0[..i], snapshot, reload)
    requires engine.calls == calls0 + LoadCalls(req)
    requires batch.operations == IssuedOps(|req|)
    modifies engine`calls, batch`operations, Entries(scenes)`scenePath
    ensures CompletedUpTo(scenes, paths0, i + 1)
    ensures req' == RequestedPaths(paths0[..i + 1], snapshot, reload)
    ensures engine.calls == calls0 + LoadCalls(req')
    ensures batch.operations == IssuedOps(|req'|)
  {
    RequestedPathsStep(paths0, i, snapshot, reload);
    var op := RequestEntryAt(engine, scenes, i, paths0, snapshot, reload);
    req' := req;
    if op.Some? {
      batch.Add(op.value);
      RequestAppended(req, Normalized(paths0[i]));
      AppendAssociative(calls0, LoadCalls(req), [Call.LoadSceneAsync(Normalized(paths0[i]))]);
      req' := req + [Normalized(paths0[i])];
    }
  }

  /** The `i`-th entry's part of an iteration: its stored path is completed and no other entry's path changes. */
  method RequestEntryAt(engine: SceneManager, scenes: seq<SceneData>, i: nat, ghost paths0: seq<string>,
                        snapshot: seq<string>, reload: bool)
    returns (op: Option<Operation>)
    requires i < |scenes| && SameEntrySamePath(scenes, paths0) && CompletedUpTo(scenes, paths0, i)
    modifies engine`calls, Entries(scenes)`scenePath
    ensures CompletedUpTo(scenes, paths0, i + 1)
    ensures op.Some? <==> reload || SceneNameOf(paths0[i]) !in snapshot
    ensures op.Some? ==> op.value == Issued()
    ensures engine.calls == old(engine.calls) + if op.Some? then [Call.LoadSceneAsync(Normalized(paths0[i]))] else []
  {
    NormalizedIdempotent(paths0[i]);
    ghost var before := PathsOf(scenes);
    op := RequestEntry(engine, scenes[i], paths0[i], snapshot, reload);
    forall j | 0 <= j < |scenes|
      ensures scenes[j].scenePath == paths0[j] || scenes[j].scenePath == Normalized(paths0[j])
      ensures j <= i ==> scenes[j].scenePath == Normalized(paths0[j])
    {
      if scenes[j] != scenes[i] {
        assert scenes[j].scenePath == before[j];
      }
    }
  }

  /** One more entry handled appends at most its own request. */
  lemma RequestedPathsStep(paths: seq<string>, i: nat, snapshot: seq<string>, reload: bool)
    requires i < |paths|
    ensures RequestedPaths(paths[..i + 1], snapshot, reload)
      == RequestedPaths(paths[..i], snapshot, reload)
         + if reload || SceneNameOf(paths[i]) !in snapshot then [Normalized(paths[i])] else []
  {
    var p := paths[..i + 1];
    assert p[..i] == paths[..i];
    assert NamesOf(p)[..i] == NamesOf(paths[..i]);
    assert NormalizedAll(p)[..i] == NormalizedAll(paths[..i]);
  }

  /**
   * One iteration of the load-request `foreach`, for an entry first stored
   * at `p` (and possibly completed already through another occurrence of
   * the same entry in the list).
   */
  method RequestEntry(engine: SceneManager, entry: SceneData, ghost p: string, snapshot: seq<string>, reload: bool)
    returns (op: Option<Operation>)
    requires entry.scenePath == p || entry.scenePath == Normalized(p)
    modifies engine`calls, entry`scenePath
    ensures entry.scenePath == Normalized(p)
    ensures op.Some? <==> reload || SceneNameOf(p) !in snapshot
    ensures op.Some? ==> op.value == Issued()
    ensures engine.calls == old(engine.calls) + if op.Some? then [Call.LoadSceneAsync(Normalized(p))] else []
  {
    NormalizedIdempotent(p);
    SceneNameStable(p);
    if !reload {
      var name := entry.GetSceneName();
      if name in snapshot {
        return None;
      }
    }
    var logged := entry.GetSceneName();
    var handle := engine.LoadSceneAsync(entry.scenePath);
    op := Some(handle);
  }

  /**
   * The part of `LoadScenes` after the unload wait: the load requests, the
   * polling with progress reports, and (once every load is done) the
   * activation of the first flagged entry's scene by its completed path.
   */
  method LoadEntries(engine: SceneManager, scenes: seq<SceneData>, snapshot: seq<string>, reload: bool,
                     loadObs: seq<seq<Status>>)
    returns (reports: seq<real>, completed: bool)
    modifies engine`calls, Entries(scenes)`scenePath
    ensures PathsOf(scenes) == NormalizedAll(old(PathsOf(scenes)))
    ensures PollTrace(LoadBatch(|RequestedPaths(old(PathsOf(scenes)), snapshot, reload)|), loadObs, reports, completed)
    ensures engine.calls == old(engine.calls) + LoadCalls(RequestedPaths(old(PathsOf(scenes)), snapshot, reload))
      + if completed then ActivationCalls(old(FlagsOf(scenes)), NormalizedAll(old(PathsOf(scenes)))) else []
  {
    ghost var paths0 := PathsOf(scenes);
    ghost var requested := RequestedPaths(paths0, snapshot, reload);
    var flags := FlagsOf(scenes);
    var batch := RequestEntryLoads(engine, scenes, snapshot, reload);
    assert engine.calls == old(engine.calls) + LoadCalls(requested);
    var paths := PathsOf(scenes);
    assert paths == NormalizedAll(paths0);
    reports, completed := PollThenActivate(engine, batch, flags, paths, loadObs);
    assert PathsOf(scenes) == paths;
  }

  class SceneGroupLoader {
    var activeSceneGroup: Option<SceneGroup>
    const bootSceneName: string

    constructor (bootSceneName: string)
      ensures this.bootSceneName == bootSceneName && activeSceneGroup == None
    {
      this.bootSceneName := bootSceneName;
      activeSceneGroup := None;
    }

    /**
     * `LoadScenes`: as in the other namespace, with loads requested by
     * completed stored path and skipped by completed name. Once the unload
     * phase is over every entry's stored path has been completed.
     */
    method LoadScenes(engine: SceneManager, group: SceneGroup, reloadDuplicateScenes: bool,
                      unloadObs: seq<seq<Status>>, loadObs: seq<seq<Status>>)
      returns (reports: seq<real>, outcome: LoadOutcome)
      modifies this`activeSceneGroup, engine`calls, Entries(group.scenes)`scenePath
      ensures activeSceneGroup == Some(group)
      ensures LoadRun(engine.scenes, engine.unloadRefused, bootSceneName,
                      RequestedPaths(old(PathsOf(group.scenes)), Snapshot(engine.scenes), reloadDuplicateScenes),
                      ActivationCalls(old(FlagsOf(group.scenes)), NormalizedAll(old(PathsOf(group.scenes)))),
                      unloadObs, loadObs, reports, outcome, old(engine.calls), engine.calls)
      ensures PathsAfter(outcome, old(PathsOf(group.scenes)), PathsOf(group.scenes))
    {
      ghost var paths0, flags0 := PathsOf(group.scenes), FlagsOf(group.scenes);
      ghost var unloadCalls := UnloadCalls(UnloadCandidates(engine.scenes, bootSceneName));
      activeSceneGroup := Some(group);
      var loadedScenes := Snapshot(engine.scenes);
      var unloaded := UnloadScenes(engine, bootSceneName, unloadObs);
      assert engine.calls == old(engine.calls) + unloadCalls;
      assert PathsOf(group.scenes) == paths0 && FlagsOf(group.scenes) == flags0;
      if !unloaded {
        reports, outcome := [], StuckUnloading;
        return;
      }
      ghost var requested := RequestedPaths(paths0, loadedScenes, reloadDuplicateScenes);
      var completed;
      reports, completed := LoadEntries(engine, group.scenes, loadedScenes, reloadDuplicateScenes, loadObs);
      assert engine.calls == old(engine.calls) + unloadCalls + LoadCalls(requested)
        + if completed then ActivationCalls(flags0, NormalizedAll(paths0)) else [];
      outcome := if completed then Completed else StuckLoading;
      // the post-load delay of `loadingDelay` seconds is an abstract wait
    }
  }

  /**
   * A run of the group loader `loader` as the orchestrator makes it, without
   * reloading duplicates: `paths` and `flags` are the entries' stored paths
   * and active-scene flags when the run started.
   */
  ghost predicate GroupRun(engine: SceneManager, loader: SceneGroupLoader, paths: seq<string>, flags: seq<bool>,
                           unloadObs: seq<seq<Status>>, loadObs: seq<seq<Status>>, reports: seq<real>,
                           outcome: LoadOutcome, calls0: seq<Call>, calls: seq<Call>)
    requires |flags| == |paths|
  {
    LoadRun(engine.scenes, engine.unloadRefused, loader.bootSceneName,
            RequestedPaths(paths, Snapshot(engine.scenes), false),
            ActivationCalls(flags, NormalizedAll(paths)), unloadObs, loadObs, reports, outcome, calls0, calls)
  }

  class SceneLoader {
    var isLoading: bool
    var current: Option<SceneGroup>
    var previous: Option<SceneGroup>
    /** Messages passed to `Debug.LogError`. */
    var errors: seq<string>
    /** Calls made to the loading-screen player. */
    var screen: seq<ScreenEvent>
    const loader: SceneGroupLoader

    /** `Awake`: the group loader gets the configured boot scene name; an empty one is logged as an error. */
    constructor Awake(bootSceneName: string)
      ensures fresh(loader) && loader.activeSceneGroup == None && loader.bootSceneName == bootSceneName
      ensures errors == if bootSceneName == "" then [BootNameMissing] else []
      ensures !isLoading && current == None && previous == None && screen == []
    {
      loader := new SceneGroupLoader(bootSceneName);
      isLoading, current, previous := false, None, None;
      screen := [];
      errors := if bootSceneName == "" then [BootNameMissing] else [];
    }

    function Groups(): History<SceneGroup>
      reads this`current, this`previous
    {
      History(current, previous)
    }

    /** The first phase of `LoadSceneGroup`: the single-flight guard and the empty-group check. */
    method Begin(group: SceneGroup) returns (admission: Admission)
      modifies this`isLoading, this`errors
      ensures admission == Admit(old(isLoading), |group.scenes|)
      ensures admission == Rejected ==> isLoading && errors == old(errors)
      ensures admission == EmptyGroup ==> !isLoading && errors == old(errors) + [EmptyGroupError(group.name)]
      ensures admission == Started ==> isLoading && errors == old(errors)
    {
      if isLoading {
        return Rejected;
      }
      isLoading := true;
      if |group.scenes| > 0 {
        admission := Started;
      } else {
        errors := errors + [EmptyGroupError(group.name)];
        isLoading := false;
        admission := EmptyGroup;
      }
    }

    /** The last phase of a successful `LoadSceneGroup`: the history moves on and the guard is released. */
    method Finish(group: SceneGroup)
      requires isLoading
      modifies this`current, this`previous, this`isLoading
      ensures Groups() == AfterLoad(old(Groups()), group)
      ensures !isLoading
    {
      if current != None {
        previous := current;
      }
      current := Some(group);
      isLoading := false;
    }

    /**
     * The middle of a started `LoadSceneGroup`: the loading screen around the
     * group loader, which is never asked to reload duplicates. Only the
     * screen, the group loader and what the group loader changes are touched.
     */
    method Run(engine: SceneManager, group: SceneGroup, unloadObs: seq<seq<Status>>, loadObs: seq<seq<Status>>)
      returns (outcome: LoadOutcome, reports: seq<real>)
      modifies this`screen, loader`activeSceneGroup, engine`calls, Entries(group.scenes)`scenePath
      ensures loader.activeSceneGroup == Some(group)
      ensures GroupRun(engine, loader, old(PathsOf(group.scenes)), old(FlagsOf(group.scenes)),
                       unloadObs, loadObs, reports, outcome, old(engine.calls), engine.calls)
      ensures PathsAfter(outcome, old(PathsOf(group.scenes)), PathsOf(group.scenes))
      ensures screen == old(screen) + ScreenCalls(group.loadingProfile, reports, outcome == Completed)
    {
      ghost var screen0 := screen;
      ghost var paths, flags := PathsOf(group.scenes), FlagsOf(group.scenes);
      ShowStart(group);
      outcome, reports := RunLoader(engine, group, paths, flags, unloadObs, loadObs);
      ghost var after := PathsOf(group.scenes);
      ShowRest(group, reports, outcome == Completed, screen0);
      assert PathsOf(group.scenes) == after;
    }

    /** The loading screen is played before the group loader starts, when the group has a profile. */
    method ShowStart(group: SceneGroup)
      modifies this`screen
      ensures screen == old(screen) + if group.UseLoadingScreen() then [Play(group.loadingProfile.value)] else []
    {
      if group.UseLoadingScreen() {
        screen := screen + [Play(group.loadingProfile.value)];
      }
    }

    /**
     * The loading screen after the group loader's run: it has shown every
     * progress report and, once the load completed, is stopped. With the
     * start, these are all of the load's screen calls.
     */
    method ShowRest(group: SceneGroup, reports: seq<real>, completed: bool, ghost before: seq<ScreenEvent>)
      requires screen == before + if group.UseLoadingScreen() then [Play(group.loadingProfile.value)] else []
      modifies this`screen
      ensures screen == before + ScreenCalls(group.loadingProfile, reports, completed)
    {
      ScreenCallsSplit(group.loadingProfile, reports, completed);
      if group.UseLoadingScreen() {
        var rest := ShownProgress(reports) + if completed then [Stop] else [];
        screen := screen + rest;
        AppendAssociative(before, [Play(group.loadingProfile.value)], rest);
      }
    }

    /** The group loader's run, seen from the orchestrator: only the loader, the engine and the entries' paths change. */
    method RunLoader(engine: SceneManager, group: SceneGroup, ghost paths: seq<string>, ghost flags: seq<bool>,
                     unloadObs: seq<seq<Status>>, loadObs: seq<seq<Status>>)
      returns (outcome: LoadOutcome, reports: seq<real>)
      requires paths == PathsOf(group.scenes) && flags == FlagsOf(group.scenes)
      modifies loader`activeSceneGroup, engine`calls, Entries(group.scenes)`scenePath
      ensures loader.activeSceneGroup == Some(group)
      ensures GroupRun(engine, loader, paths, flags, unloadObs, loadObs, reports, outcome, old(engine.calls), engine.calls)
      ensures PathsAfter(outcome, paths, PathsOf(group.scenes))
    {
      reports, outcome := loader.LoadScenes(engine, group, false, unloadObs, loadObs);
    }

    /** `LoadSceneGroup`: both phases around the loading screen and the group loader. */
    method LoadSceneGroup(engine: SceneManager, group: SceneGroup, unloadObs: seq<seq<Status>>, loadObs: seq<seq<Status>>)
      returns (admission: Admission, outcome: Option<LoadOutcome>, reports: seq<real>)
      modifies this`isLoading, this`errors, this`screen, this`current, this`previous
      modifies loader`activeSceneGroup, engine`calls, Entries(group.scenes)`scenePath
      ensures admission == Admit(old(isLoading), |group.scenes|)
      ensures admission != Started ==>
        outcome == None && Groups() == old(Groups()) && screen == old(screen)
        && engine.calls == old(engine.calls) && loader.activeSceneGroup == old(loader.activeSceneGroup)
        && PathsOf(group.scenes) == old(PathsOf(group.scenes))
      ensures admission == Rejected ==> isLoading && errors == old(errors)
      ensures admission == EmptyGroup ==> !isLoading && errors == old(errors) + [EmptyGroupError(group.name)]
      ensures admission == Started ==>
        outcome.Some? && loader.activeSceneGroup == Some(group) && errors == old(errors)
        && screen == old(screen) + ScreenCalls(group.loadingProfile, reports, outcome == Some(Completed))
      ensures admission == Started ==>
        outcome.Some? && GroupRun(engine, loader, old(PathsOf(group.scenes)), old(FlagsOf(group.scenes)),
                                  unloadObs, loadObs, reports, outcome.value, old(engine.calls), engine.calls)
        && PathsAfter(outcome.value, old(PathsOf(group.scenes)), PathsOf(group.scenes))
      ensures outcome == Some(Completed) ==> Groups() == AfterLoad(old(Groups()), group) && !isLoading
      ensures admission == Started && outcome != Some(Completed) ==> isLoading && Groups() == old(Groups())
    {
      ghost var paths, flags := PathsOf(group.scenes), FlagsOf(group.scenes);
      ghost var groups, calls := Groups(), engine.calls;
      admission := Begin(group);
      assert PathsOf(group.scenes) == paths && FlagsOf(group.scenes) == flags;
      if admission != Started {
        return admission, None, [];
      }
      var result;
      result, reports := Proceed(engine, group, paths, flags, groups, calls, unloadObs, loadObs);
      outcome := Some(result);
    }

    /**
     * The second phase of a started `LoadSceneGroup`: the run under the
     * loading screen, then, once it completed, the history and the guard;
     * otherwise the load is still awaiting the engine and the guard stays
     * set.
     */
    method Proceed(engine: SceneManager, group: SceneGroup, ghost paths: seq<string>, ghost flags: seq<bool>,
                   ghost groups: History<SceneGroup>, ghost calls: seq<Call>,
                   unloadObs: seq<seq<Status>>, loadObs: seq<seq<Status>>)
      returns (result: LoadOutcome, reports: seq<real>)
      requires isLoading && paths == PathsOf(group.scenes) && flags == FlagsOf(group.scenes)
      requires groups == Groups() && calls == engine.calls
      modifies this`screen, this`current, this`previous, this`isLoading
      modifies loader`activeSceneGroup, engine`calls, Entries(group.scenes)`scenePath
      ensures loader.activeSceneGroup == Some(group)
      ensures GroupRun(engine, loader, paths, flags, unloadObs, loadObs, reports, result, calls, engine.calls)
      ensures PathsAfter(result, paths, PathsOf(group.scenes))
      ensures screen == old(screen) + ScreenCalls(group.loadingProfile, reports, result == Completed)
      ensures result == Completed ==> Groups() == AfterLoad(groups, group) && !isLoading
      ensures result != Completed ==> isLoading && Groups() == groups
    {
      result, reports := Run(engine, group, unloadObs, loadObs);
      ghost var after := PathsOf(group.scenes);
      if result == Completed {
        Finish(group);
      }
      assert PathsOf(group.scenes) == after;
    }
  }
}
