/**
 * The parts of `SceneGroupLoader` that are the same in both namespaces: the
 * scene-name snapshot, the choice of scenes to unload and the unload phase,
 * the skip rule for scenes already present, the load polling loop with its
 * deferred activation, and the choice of the scene to activate.
 */
module GroupLoading {
  import opened SceneEngine
  import opened OperationGroup

  /**
   * How far a `LoadScenes` run got. The source awaits the engine; the model
   * stops where it would wait for ever once the observations run out.
   */
  datatype LoadOutcome =
    | StuckUnloading   // the unload batch never finished within the observations
    | StuckLoading     // the load batch never finished within the observations
    | Completed

  /** Threshold of observed progress from which activation is allowed (`0.9f`). */
  const ActivationThreshold: real := 0.9

  /** Names of all scenes in the engine, `Enumerable.Range(0, sceneCount).Select(i => GetSceneAt(i).name)`. */
  function Snapshot(scenes: seq<Scene>): (names: seq<string>)
    ensures |names| == |scenes|
    ensures forall i :: 0 <= i < |scenes| ==> names[i] == scenes[i].name
  {
    seq(|scenes|, i requires 0 <= i < |scenes| => scenes[i].name)
  }

  /** Names of the loaded scenes of `ss`, other than `boot`, in order. */
  function LoadedOthers(ss: seq<Scene>, boot: string): (r: seq<string>)
    ensures |r| <= |ss|
    ensures forall i :: 0 <= i < |r| ==> r[i] != boot
  {
    if |ss| == 0 then []
    else (if ss[0].isLoaded && ss[0].name != boot then [ss[0].name] else []) + LoadedOthers(ss[1..], boot)
  }

  /**
   * Scenes to unload: those at indices 1 .. sceneCount-1 that are loaded and
   * not named `boot`. (The engine always holds at least one scene; for an
   * empty list the model yields no candidates.)
   */
  function UnloadCandidates(scenes: seq<Scene>, boot: string): (r: seq<string>)
    ensures |scenes| > 0 ==> |r| < |scenes|
    ensures forall i :: 0 <= i < |r| ==> r[i] != boot
  {
    if |scenes| == 0 then [] else LoadedOthers(scenes[1..], boot)
  }

  /** Handles of an unload batch: the candidates the engine did not refuse. */
  function Accepted(names: seq<string>, refused: set<string>): seq<string> {
    if |names| == 0 then []
    else Accepted(names[..|names| - 1], refused)
         + (if names[|names| - 1] in refused then [] else [names[|names| - 1]])
  }

  /**
   * The load requests for a group whose entries have scene names `names`
   * and are requested as `targets` (by name in one namespace, by stored
   * path in the other): in list order, every entry when `reload` is set,
   * otherwise those whose name is not in `snapshot`.
   */
  function Requested(names: seq<string>, targets: seq<string>, snapshot: seq<string>, reload: bool): (r: seq<string>)
    requires |names| == |targets|
    ensures |r| <= |targets|
    ensures reload ==> |r| == |targets|
  {
    if |names| == 0 then []
    else Requested(names[..|names| - 1], targets[..|targets| - 1], snapshot, reload)
         + (if reload || names[|names| - 1] !in snapshot then [targets[|targets| - 1]] else [])
  }

  /** The handles of the unload batch as issued: one per candidate the engine accepted. */
  function UnloadBatch(scenes: seq<Scene>, boot: string, refused: set<string>): seq<Operation> {
    IssuedOps(|Accepted(UnloadCandidates(scenes, boot), refused)|)
  }

  /** The handles of a load batch of `n` requests at its first poll: activation switched off. */
  function LoadBatch(n: nat): seq<Operation> {
    WithActivation(IssuedOps(n), false)
  }

  /** `n` handles as the engine issues them. */
  function IssuedOps(n: nat): (ops: seq<Operation>)
    ensures |ops| == n && forall i :: 0 <= i < n ==> ops[i] == Issued()
  {
    seq(n, _ => Issued())
  }

  function UnloadCalls(names: seq<string>): (cs: seq<Call>)
    ensures |cs| == |names| && forall i :: 0 <= i < |names| ==> cs[i] == Call.UnloadSceneAsync(names[i])
  {
    seq(|names|, i requires 0 <= i < |names| => Call.UnloadSceneAsync(names[i]))
  }

  function LoadCalls(scenes: seq<string>): (cs: seq<Call>)
    ensures |cs| == |scenes| && forall i :: 0 <= i < |scenes| ==> cs[i] == Call.LoadSceneAsync(scenes[i])
  {
    seq(|scenes|, i requires 0 <= i < |scenes| => Call.LoadSceneAsync(scenes[i]))
  }

  /**
   * The index of the first flagged entry, or None: the entry whose scene the
   * loader makes active (`Where(isActiveScene)` followed by `break`).
   */
  function FirstActive(flags: seq<bool>): (r: Option<nat>)
    ensures r.Some? ==> r.value < |flags| && flags[r.value] && forall j :: 0 <= j < r.value ==> !flags[j]
    ensures r.None? ==> forall j :: 0 <= j < |flags| ==> !flags[j]
  {
    if |flags| == 0 then None
    else if flags[0] then Some(0)
    else match FirstActive(flags[1..])
      case None => None
      case Some(k) => Some(k + 1)
  }

  /** The activation request for the first flagged entry, if any. */
  function ActivationCalls(flags: seq<bool>, paths: seq<string>): seq<Call>
    requires |flags| == |paths|
  {
    match FirstActive(flags)
    case None => []
    case Some(i) => [Call.SetActiveScene(paths[i])]
  }

  /** Some report reached the activation threshold. */
  predicate Unlocked(reports: seq<real>) {
    exists j :: 0 <= j < |reports| && reports[j] >= ActivationThreshold
  }

  /**
   * What the load polling loop reports, starting from the handles `base`
   * with activation off: one report per poll at which the batch was not yet
   * done, each the mean progress at that poll; `finished` when a poll found
   * the batch done, otherwise the observations ran out.
   */
  ghost predicate PollTrace(base: seq<Operation>, obs: seq<seq<Status>>, reports: seq<real>, finished: bool) {
    && (forall j :: 0 <= j < |reports| ==>
          j <= |obs| && !AllDone(StatusAt(base, obs, j)) && reports[j] == MeanProgress(StatusAt(base, obs, j)))
    && (finished ==> |reports| <= |obs| && AllDone(StatusAt(base, obs, |reports|)))
    && (!finished ==> |reports| == |obs| + 1)
  }

  /**
   * What one `LoadScenes` run did, given the engine's scenes, the names it
   * refuses to unload and the boot scene: the load requests `requested`
   * follow the unloads, and `activation` the finished polling. The run is
   * stuck unloading exactly when the unload batch never finishes, and then
   * reports nothing; otherwise its reports are the poll trace of the load
   * batch. `calls` is the engine's request log `calls0` extended by the
   * requests issued up to the point where the run stopped.
   */
  ghost predicate LoadRun(scenes: seq<Scene>, refused: set<string>, boot: string, requested: seq<string>,
                          activation: seq<Call>, unloadObs: seq<seq<Status>>, loadObs: seq<seq<Status>>,
                          reports: seq<real>, outcome: LoadOutcome, calls0: seq<Call>, calls: seq<Call>)
  {
    var unloads := UnloadCalls(UnloadCandidates(scenes, boot));
    && (outcome == StuckUnloading <==> !FinishesWithin(UnloadBatch(scenes, boot, refused), unloadObs))
    && (outcome == StuckUnloading ==> reports == [] && calls == calls0 + unloads)
    && (outcome != StuckUnloading ==> PollTrace(LoadBatch(|requested|), loadObs, reports, outcome == Completed))
    && (outcome == StuckLoading ==> calls == calls0 + unloads + LoadCalls(requested))
    && (outcome == Completed ==> calls == calls0 + unloads + LoadCalls(requested) + activation)
  }

  // ---------------------------------------------------------------- lemmas

  lemma {:induction false} LoadedOthersMembers(ss: seq<Scene>, boot: string, x: string)
    ensures x in LoadedOthers(ss, boot) <==>
      exists i :: 0 <= i < |ss| && ss[i].isLoaded && ss[i].name != boot && ss[i].name == x
  {
    if |ss| > 0 {
      LoadedOthersMembers(ss[1..], boot, x);
      if x in LoadedOthers(ss[1..], boot) {
        var i :| 0 <= i < |ss[1..]| && ss[1..][i].isLoaded && ss[1..][i].name != boot && ss[1..][i].name == x;
        assert ss[i + 1] == ss[1..][i];
      }
      if exists i :: 0 <= i < |ss| && ss[i].isLoaded && ss[i].name != boot && ss[i].name == x {
        var i :| 0 <= i < |ss| && ss[i].isLoaded && ss[i].name != boot && ss[i].name == x;
        if i > 0 {
          assert ss[1..][i - 1] == ss[i];
        }
      }
    }
  }

  /**
   * A name is an unload candidate exactly when some scene at index 1 or
   * later carries it, is loaded and is not the boot scene. In particular the
   * boot scene is never unloaded, nor is the scene at index 0 unless its
   * name recurs further on.
   */
  lemma UnloadCandidatesExactly(scenes: seq<Scene>, boot: string, x: string)
    ensures x in UnloadCandidates(scenes, boot) <==>
      exists i :: 1 <= i < |scenes| && scenes[i].isLoaded && scenes[i].name != boot && scenes[i].name == x
  {
    if |scenes| > 0 {
      LoadedOthersMembers(scenes[1..], boot, x);
      if exists i :: 1 <= i < |scenes| && scenes[i].isLoaded && scenes[i].name != boot && scenes[i].name == x {
        var i :| 1 <= i < |scenes| && scenes[i].isLoaded && scenes[i].name != boot && scenes[i].name == x;
        assert scenes[1..][i - 1] == scenes[i];
      }
    }
  }

  /** A target is requested exactly when some entry that is not skipped has it. */
  lemma {:induction false} RequestedMembers(names: seq<string>, targets: seq<string>, snapshot: seq<string>,
                                            reload: bool, x: string)
    requires |names| == |targets|
    ensures x in Requested(names, targets, snapshot, reload) <==>
      exists i :: 0 <= i < |names| && x == targets[i] && (reload || names[i] !in snapshot)
  {
    if |names| > 0 {
      var n := |names| - 1;
      var front, tfront := names[..n], targets[..n];
      RequestedMembers(front, tfront, snapshot, reload, x);
      if x in Requested(names, targets, snapshot, reload) {
        if x in Requested(front, tfront, snapshot, reload) {
          var i :| 0 <= i < n && x == tfront[i] && (reload || front[i] !in snapshot);
          assert targets[i] == tfront[i] && names[i] == front[i];
        } else {
          assert x == targets[n] && (reload || names[n] !in snapshot);
        }
      } else {
        forall i | 0 <= i < |names| ensures !(x == targets[i] && (reload || names[i] !in snapshot)) {
          if i < n {
            assert targets[i] == tfront[i] && names[i] == front[i];
          }
        }
      }
    }
  }

  /** Loading by name: a scene is requested exactly when it is in the group and, unless `reload`, not present. */
  lemma RequestedByName(names: seq<string>, snapshot: seq<string>, reload: bool, x: string)
    ensures x in Requested(names, names, snapshot, reload) <==> x in names && (reload || x !in snapshot)
  {
    RequestedMembers(names, names, snapshot, reload, x);
    if x in names {
      var i :| 0 <= i < |names| && names[i] == x;
    }
  }

  /** With `reload` set, every entry is requested, in list order. */
  lemma {:induction false} RequestedWithReload(names: seq<string>, targets: seq<string>, snapshot: seq<string>)
    requires |names| == |targets|
    ensures Requested(names, targets, snapshot, true) == targets
  {
    if |names| > 0 {
      RequestedWithReload(names[..|names| - 1], targets[..|targets| - 1], snapshot);
      assert targets == targets[..|targets| - 1] + [targets[|targets| - 1]];
    }
  }

  /** Without `reload`, nothing is requested when every entry's scene is already present. */
  lemma {:induction false} RequestedNothingWhenAllPresent(names: seq<string>, targets: seq<string>, snapshot: seq<string>)
    requires |names| == |targets|
    requires forall i :: 0 <= i < |names| ==> names[i] in snapshot
    ensures Requested(names, targets, snapshot, false) == []
  {
    if |names| > 0 {
      RequestedNothingWhenAllPresent(names[..|names| - 1], targets[..|targets| - 1], snapshot);
    }
  }

  /**
   * A loaded scene of the old group that the new group lists again is
   * unloaded, and, without `reload`, not loaded again: the skip test uses
   * the names loaded before the unloads.
   */
  lemma SharedSceneUnloadedNotReloaded(scenes: seq<Scene>, boot: string, names: seq<string>, i: nat)
    requires 1 <= i < |scenes| && scenes[i].isLoaded && scenes[i].name != boot && scenes[i].name in names
    ensures scenes[i].name in UnloadCandidates(scenes, boot)
    ensures scenes[i].name !in Requested(names, names, Snapshot(scenes), false)
  {
    UnloadCandidatesExactly(scenes, boot, scenes[i].name);
    assert Snapshot(scenes)[i] == scenes[i].name;
    RequestedByName(names, Snapshot(scenes), false, scenes[i].name);
  }

  /** One more accepted request extends the call log and the batch by one entry each. */
  lemma RequestAppended(req: seq<string>, target: string)
    ensures LoadCalls(req + [target]) == LoadCalls(req) + [Call.LoadSceneAsync(target)]
    ensures IssuedOps(|req + [target]|) == IssuedOps(|req|) + [Issued()]
  {
  }

  /** With entries A(off), B(on), C(on), B, the first flagged entry, is chosen and C ignored. */
  lemma FirstActiveExample()
    ensures FirstActive([false, true, true]) == Some(1)
  {
    assert [false, true, true][1..] == [true, true];
  }

  lemma {:induction false} StatusAtBounds(base: seq<Operation>, obs: seq<seq<Status>>, j: nat)
    requires j <= |obs|
    requires forall i :: 0 <= i < |base| ==> 0.0 <= base[i].progress <= 1.0
    requires forall k, i :: 0 <= k < |obs| && 0 <= i < |obs[k]| ==> 0.0 <= obs[k][i].progress <= 1.0
    ensures forall i :: 0 <= i < |base| ==> 0.0 <= StatusAt(base, obs, j)[i].progress <= 1.0
  {
    if j > 0 {
      StatusAtBounds(base, obs, j - 1);
    }
  }

  /**
   * When the engine reports progress in [0, 1], every progress the loop
   * reports is in [0, 1] as well.
   */
  lemma ReportsInUnitRange(base: seq<Operation>, obs: seq<seq<Status>>, reports: seq<real>, finished: bool)
    requires PollTrace(base, obs, reports, finished)
    requires forall i :: 0 <= i < |base| ==> 0.0 <= base[i].progress <= 1.0
    requires forall k, i :: 0 <= k < |obs| && 0 <= i < |obs[k]| ==> 0.0 <= obs[k][i].progress <= 1.0
    ensures forall j :: 0 <= j < |reports| ==> 0.0 <= reports[j] <= 1.0
  {
    forall j | 0 <= j < |reports| ensures 0.0 <= reports[j] <= 1.0 {
      StatusAtBounds(base, obs, j);
      var s := StatusAt(base, obs, j);
      if |s| > 0 {
        MeanProgressBounds(s, 0.0, 1.0);
      }
    }
  }

  /** The loop finishes exactly when some poll the observations allow finds the batch done. */
  lemma PollFinishesIffDone(base: seq<Operation>, obs: seq<seq<Status>>, reports: seq<real>, finished: bool)
    requires PollTrace(base, obs, reports, finished)
    ensures finished <==> FinishesWithin(base, obs)
  {
    if !finished {
      forall j | 0 <= j <= |obs| ensures !AllDone(StatusAt(base, obs, j)) {
        assert j < |reports|;
      }
    }
  }

  // --------------------------------------------------------------- phases

  /**
   * `UnloadScenes`: request the unload of every candidate, keep the non-null
   * handles, then wait until all are done. `done` is false when the
   * observations run out first.
   */
  method UnloadScenes(engine: SceneManager, bootSceneName: string, obs: seq<seq<Status>>) returns (done: bool)
    modifies engine`calls
    ensures engine.calls == old(engine.calls) + UnloadCalls(UnloadCandidates(engine.scenes, bootSceneName))
    ensures done <==> FinishesWithin(UnloadBatch(engine.scenes, bootSceneName, engine.unloadRefused), obs)
  {
    var scenes := UnloadCandidates(engine.scenes, bootSceneName);
    var batch := RequestUnloads(engine, scenes);
    done := WaitUntilDone(batch, obs);
  }

  /** The `foreach` of `UnloadScenes`: one unload request per name; null handles are dropped. */
  method RequestUnloads(engine: SceneManager, scenes: seq<string>) returns (batch: AsyncOperationGroup)
    modifies engine`calls
    ensures fresh(batch)
    ensures engine.calls == old(engine.calls) + UnloadCalls(scenes)
    ensures batch.operations == IssuedOps(|Accepted(scenes, engine.unloadRefused)|)
  {
    batch := new AsyncOperationGroup();
    for i := 0 to |scenes|
      invariant engine.calls == old(engine.calls) + UnloadCalls(scenes[..i])
      invariant batch.operations == IssuedOps(|Accepted(scenes[..i], engine.unloadRefused)|)
    {
      var op := engine.UnloadSceneAsync(scenes[i]);
      assert scenes[..i + 1][..i] == scenes[..i];
      if op.Some? {
        batch.Add(op.value);
      }
    }
    assert scenes[..|scenes|] == scenes;
  }

  /**
   * The load-request `foreach` of `LoadScenes`: one additive load per group
   * scene, in list order, skipping (unless `reload`) names in the snapshot.
   */
  method RequestLoads(engine: SceneManager, names: seq<string>, snapshot: seq<string>, reload: bool)
    returns (batch: AsyncOperationGroup)
    modifies engine`calls
    ensures fresh(batch)
    ensures engine.calls == old(engine.calls) + LoadCalls(Requested(names, names, snapshot, reload))
    ensures batch.operations == IssuedOps(|Requested(names, names, snapshot, reload)|)
  {
    batch := new AsyncOperationGroup();
    for i := 0 to |names|
      invariant engine.calls == old(engine.calls) + LoadCalls(Requested(names[..i], names[..i], snapshot, reload))
      invariant batch.operations == IssuedOps(|Requested(names[..i], names[..i], snapshot, reload)|)
    {
      assert names[..i + 1][..i] == names[..i];
      if !reload && names[i] in snapshot {
        continue;
      }
      var op := engine.LoadSceneAsync(names[i]);
      batch.Add(op);
    }
    assert names[..|names|] == names;
  }

  /**
   * The tail of `LoadScenes`: the polling of the load batch, then, once every
   * load is done, the activation of the first flagged entry's scene.
   */
  method PollThenActivate(engine: SceneManager, batch: AsyncOperationGroup, flags: seq<bool>, paths: seq<string>,
                          obs: seq<seq<Status>>)
    returns (reports: seq<real>, finished: bool)
    requires |flags| == |paths|
    modifies batch, engine`calls
    ensures PollTrace(WithActivation(old(batch.operations), false), obs, reports, finished)
    ensures engine.calls == old(engine.calls) + if finished then ActivationCalls(flags, paths) else []
  {
    ghost var awaited;
    reports, finished, awaited := PollLoading(batch, obs);
    if finished {
      ActivateFirst(engine, flags, paths);
    }
  }

  /**
   * The activation `foreach` of `LoadScenes`: the scene of the first flagged
   * entry is made active and the loop stops; with no flagged entry nothing
   * happens.
   */
  method ActivateFirst(engine: SceneManager, flags: seq<bool>, paths: seq<string>)
    requires |flags| == |paths|
    modifies engine`calls
    ensures engine.calls == old(engine.calls) + ActivationCalls(flags, paths)
  {
    for i := 0 to |flags|
      invariant forall j :: 0 <= j < i ==> !flags[j]
      invariant engine.calls == old(engine.calls)
    {
      if flags[i] {
        engine.SetActiveScene(paths[i]);
        assert FirstActive(flags) == Some(i);
        return;
      }
    }
  }

  /**
   * The load polling loop: activation is switched off, then on every poll
   * at which the batch is not done its progress is reported and, when at
   * least 0.9, activation is switched on. `awaited` lists the handles as the
   * engine holds them during each `await` that followed a report: activation
   * is on in the `j`-th exactly when one of the first `j + 1` reports reached
   * the threshold.
   */
  method PollLoading(batch: AsyncOperationGroup, obs: seq<seq<Status>>)
    returns (reports: seq<real>, finished: bool, ghost awaited: seq<seq<Operation>>)
    modifies batch
    ensures PollTrace(WithActivation(old(batch.operations), false), obs, reports, finished)
    ensures |awaited| == if finished then |reports| else |obs|
    ensures forall j :: 0 <= j < |awaited| ==>
      awaited[j] == WithActivation(StatusAt(WithActivation(old(batch.operations), false), obs, j), Unlocked(reports[..j + 1]))
    ensures batch.operations ==
      WithActivation(StatusAt(WithActivation(old(batch.operations), false), obs,
                              if finished then |reports| else |obs|), Unlocked(reports))
  {
    ghost var base := WithActivation(batch.operations, false);
    batch.AllowSceneActivation(false);
    ActivationOverwrites(base, false, false);
    ghost var states;
    reports, finished, states, awaited := PollLoop(batch, base, obs);
    RunGivesTrace(base, obs, states, reports, finished);
    AwaitedFromRun(base, obs, states, reports, awaited);
  }

  /**
   * The loop of `PollLoading`, from the handles `base` with activation off.
   * `states` lists the handles at each poll as the engine advanced them.
   */
  method PollLoop(batch: AsyncOperationGroup, ghost base: seq<Operation>, obs: seq<seq<Status>>)
    returns (reports: seq<real>, finished: bool, ghost states: seq<seq<Operation>>, ghost awaited: seq<seq<Operation>>)
    requires batch.operations == WithActivation(base, false)
    modifies batch
    ensures Run(base, obs, states)
    ensures forall j :: 0 <= j < |reports| ==>
      j < |states| && !AllDone(states[j]) && reports[j] == MeanProgress(states[j])
    ensures finished ==> |states| == |reports| + 1 && AllDone(states[|reports|])
    ensures !finished ==> |states| == |obs| + 1 && |reports| == |obs| + 1
    ensures AwaitedMatch(awaited, states, reports) && |awaited| == |states| - 1
    ensures batch.operations == WithActivation(states[|states| - 1], Unlocked(reports))
  {
    reports := [];
    awaited := [];
    var k := 0;
    states := [base];
    while true
      invariant 0 <= k <= |obs| && |reports| == k && |states| == k + 1 && |awaited| == k
      invariant Run(base, obs, states)
      invariant batch.operations == WithActivation(states[k], Unlocked(reports))
      invariant forall j :: 0 <= j < k ==> !AllDone(states[j]) && reports[j] == MeanProgress(states[j])
      invariant AwaitedMatch(awaited, states, reports)
      decreases |obs| - k
    {
      ghost var before := reports;
      var done, p := PollOnce(batch, states[k], Unlocked(reports));
      if done {
        finished := true;
        return;
      }
      reports := reports + [p];
      UnlockedSnoc(before, p);
      AwaitedSnoc(states, before, p, awaited);
      if k == |obs| {
        finished := false;
        return;
      }
      awaited := AwaitAdvance(batch, obs[k], states, reports, awaited);
      states := states + [Observe(states[k], obs[k])];
      k := k + 1;
    }
  }

  /**
   * One iteration of the polling loop before its `await`: stop when the batch
   * is done; otherwise report its progress `p` and, when `p >= 0.9`, allow
   * activation.
   */
  method PollOnce(batch: AsyncOperationGroup, ghost cur: seq<Operation>, ghost unlocked: bool)
    returns (done: bool, p: real)
    requires batch.operations == WithActivation(cur, unlocked)
    modifies batch
    ensures done <==> AllDone(cur)
    ensures !done ==> p == MeanProgress(cur)
    ensures batch.operations == WithActivation(cur, unlocked || (!done && p >= ActivationThreshold))
  {
    ActivationKeepsProgress(cur, unlocked);
    done := batch.IsDone();
    if done {
      p := 0.0;  // not reported
      return;
    }
    p := batch.Progress();
    if p >= 0.9 {
      ActivationOverwrites(cur, unlocked, true);
      batch.AllowSceneActivation(true);
    }
  }

  /** `states` lists the handles at the first polls: `base`, then one engine advance per observation. */
  ghost predicate Run(base: seq<Operation>, obs: seq<seq<Status>>, states: seq<seq<Operation>>) {
    && 1 <= |states| <= |obs| + 1
    && states[0] == base
    && forall j :: 0 <= j < |states| - 1 ==> states[j + 1] == Observe(states[j], obs[j])
  }

  lemma RunGivesTrace(base: seq<Operation>, obs: seq<seq<Status>>, states: seq<seq<Operation>>,
                      reports: seq<real>, finished: bool)
    requires Run(base, obs, states)
    requires forall j :: 0 <= j < |reports| ==>
      j < |states| && !AllDone(states[j]) && reports[j] == MeanProgress(states[j])
    requires finished ==> |states| == |reports| + 1 && AllDone(states[|reports|])
    requires !finished ==> |states| == |obs| + 1 && |reports| == |obs| + 1
    ensures PollTrace(base, obs, reports, finished)
    ensures states[|states| - 1] == StatusAt(base, obs, |states| - 1)
  {
    RunIsStatusAt(base, obs, states);
  }

  /** Appending a report keeps the activation recorded for the earlier awaits. */
  /**
   * `awaited` records, for each `await` so far, the handles `states[j]`
   * with activation on exactly when one of the first `j + 1` reports
   * reached the threshold.
   */
  ghost predicate AwaitedMatch(awaited: seq<seq<Operation>>, states: seq<seq<Operation>>, reports: seq<real>) {
    |awaited| <= |states| && |awaited| <= |reports| &&
    forall j :: 0 <= j < |awaited| ==> awaited[j] == WithActivation(states[j], Unlocked(reports[..j + 1]))
  }

  /** Appending a report keeps the activation recorded for the earlier awaits. */
  lemma AwaitedSnoc(states: seq<seq<Operation>>, before: seq<real>, p: real, awaited: seq<seq<Operation>>)
    requires AwaitedMatch(awaited, states, before)
    ensures AwaitedMatch(awaited, states, before + [p])
  {
    forall j | 0 <= j < |awaited|
      ensures awaited[j] == WithActivation(states[j], Unlocked((before + [p])[..j + 1]))
    {
      assert (before + [p])[..j + 1] == before[..j + 1];
    }
  }

  /**
   * The `await` after the `k`-th report: the handles as they stand join
   * `awaited`, and the engine advances them by one observation.
   */
  method AwaitAdvance(batch: AsyncOperationGroup, o: seq<Status>, ghost states: seq<seq<Operation>>,
                      ghost reports: seq<real>, ghost awaited: seq<seq<Operation>>)
    returns (ghost awaited': seq<seq<Operation>>)
    requires |states| == |reports| == |awaited| + 1
    requires batch.operations == WithActivation(states[|states| - 1], Unlocked(reports))
    requires AwaitedMatch(awaited, states, reports)
    modifies batch
    ensures |awaited'| == |awaited| + 1
    ensures AwaitedMatch(awaited', states + [Observe(states[|states| - 1], o)], reports)
    ensures batch.operations == WithActivation(Observe(states[|states| - 1], o), Unlocked(reports))
  {
    var k := |states| - 1;
    assert reports[..k + 1] == reports;
    awaited' := awaited + [batch.operations];
    ObserveCommutesWithActivation(states[k], o, Unlocked(reports));
    batch.Advance(o);
    ghost var next := states + [Observe(states[k], o)];
    forall j | 0 <= j < |awaited'| ensures awaited'[j] == WithActivation(next[j], Unlocked(reports[..j + 1])) {
      assert next[j] == states[j];
    }
  }

  lemma AwaitedFromRun(base: seq<Operation>, obs: seq<seq<Status>>, states: seq<seq<Operation>>,
                       reports: seq<real>, awaited: seq<seq<Operation>>)
    requires Run(base, obs, states) && AwaitedMatch(awaited, states, reports) && |awaited| < |states|
    ensures forall j :: 0 <= j < |awaited| ==>
      awaited[j] == WithActivation(StatusAt(base, obs, j), Unlocked(reports[..j + 1]))
  {
    RunIsStatusAt(base, obs, states);
  }

  lemma {:induction false} RunIsStatusAt(base: seq<Operation>, obs: seq<seq<Status>>, states: seq<seq<Operation>>)
    requires Run(base, obs, states)
    ensures forall j :: 0 <= j < |states| ==> states[j] == StatusAt(base, obs, j)
  {
    if |states| > 1 {
      var front := states[..|states| - 1];
      assert Run(base, obs, front);
      RunIsStatusAt(base, obs, front);
      var n := |states| - 1;
      assert states[n] == Observe(states[n - 1], obs[n - 1]);
      assert states[n - 1] == front[n - 1];
    }
  }

  lemma UnlockedSnoc(before: seq<real>, p: real)
    ensures Unlocked(before + [p]) == (Unlocked(before) || p >= ActivationThreshold)
  {
    var r := before + [p];
    if Unlocked(before) {
      var j :| 0 <= j < |before| && before[j] >= ActivationThreshold;
      assert r[j] == before[j];
    }
    assert r[|before|] == p;
  }
}
