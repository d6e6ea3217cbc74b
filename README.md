# Scene-group loader for Unity, in Dafny

This project models the core of a Unity package that loads *scene groups*:
named lists of scenes that are loaded together. The first entry flagged as
"active" becomes the active scene, and an optional loading screen shows the
progress. The package has two near-duplicate namespaces, and the model keeps
them apart over shared modules:

- `Pastime.SceneLoader` (under `Runtime/SceneLoader/`): entries hold a
  `SceneReference`, and the orchestrator raises `OnSceneGroupLoaded`;
- `ScriptableSceneLoader` (under `Runtime/`): entries hold a bare path that
  `GetSceneName` completes with `.unity` in place; there is no event.

Modules:

| module | what it holds |
|---|---|
| `SceneEngine` | the engine as the loaders see it: its scene list, the handles it returns, a log of the requests it received |
| `OperationGroup` | `AsyncOperationGroup`: mean progress, all-done test, activation broadcast, the unload wait |
| `GroupLoading` | the parts of `SceneGroupLoader` both namespaces share: snapshot, unload candidates and unload phase, skip rule, load polling with deferred activation, choice of the scene to activate |
| `LoadingProgress` | `LoadingProgress.Report` (scaling by 0.9) and the calls the loading screen receives |
| `LoadGuard` | the single-flight guard, the empty-group check and the current/previous history of `SceneLoader` |
| `ScenePaths` | `Path.GetFileNameWithoutExtension` and a case-insensitive `EndsWith` |
| `PastimeScenes`, `PastimeLoader` | the `Pastime.SceneLoader` data, group loader and orchestrator |
| `ScriptableScenes`, `ScriptableLoader` | the `ScriptableSceneLoader` data, group loader and orchestrator |
| `BuildSettings` | the editor's build list and the two queries on it that both editors use |
| `PastimeGroupEditor` | the "more than one active scene" warning |
| `ScriptableGroupEditor` | the scene-list inspector: exclusive toggle, "Add to Build", add-entry actions |
| `SceneReferenceDrawer` | the scene-reference field: missing/disabled/valid status, colour, button, menu |

The engine's work happens between two polls of the loader. The model
receives it as a sequence of observations, one per poll. When the
observations run out, the source would go on waiting for ever. The model
stops there instead, and its outcome says which wait it was stuck in
(`StuckUnloading`, `StuckLoading`); otherwise the outcome is `Completed`.

`SceneLoader.LoadSceneGroup` is split into three phases:

- Begin: the guard and the empty-group check;
- Run: the loading screen around the group loader;
- Finish: the history, the event and the release of the guard.

A second call made between `Begin` and `Finish` can then be shown to be
dropped without modelling concurrency (`OverlappingCallIsDropped`).

The code sets `allowSceneActivation = true` at every poll whose progress is
at least 0.9; the model follows it, so the flag is on from the first such
poll onwards.

A scene that is loaded before the call and listed again in the new group is
unloaded with the others and, since the orchestrator never asks for
duplicates to be reloaded, not loaded again: the skip test reads the names
captured before the unloads (`SharedSceneUnloadedNotReloaded`).

## Model

| member | source | states |
|---|---|---|
| `LoadGuard.Admit` | Runtime/SceneLoader/SceneLoader.cs:38-41 | the guard rejects exactly when a load is running; otherwise a group with no scenes is refused and a non-empty one is started |
| `LoadGuard.AfterLoad` | Runtime/SceneLoader/SceneLoader.cs:49-52 | after a load the group is current; the old current becomes previous when there was one, otherwise previous keeps its value |
| `LoadGuard.TwoLoadsFromStart` | Runtime/SceneLoader.cs:47-50 | from an empty history, one load leaves no previous group and a second load makes the first one previous |
| `LoadGuard.PreviousSetAfterSecondLoad` | Runtime/SceneLoader.cs:47-50 | once a group is current, every later load leaves some previous group |
| `PastimeLoader.SceneLoader.Awake` | Runtime/SceneLoader/SceneLoader.cs:25-35 | the group loader gets the persistent scene's name as boot name; an empty name logs exactly the boot-name error; nothing is loading and there is no history |
| `PastimeLoader.SceneLoader.Begin` | Runtime/SceneLoader/SceneLoader.cs:38-61 | a running load rejects the call and changes nothing; an empty group logs the error and leaves the guard off; a non-empty group sets the guard |
| `PastimeLoader.SceneLoader.Finish` | Runtime/SceneLoader/SceneLoader.cs:49-57 | the history moves on as `AfterLoad` says; the event fires once, with the group, after current is set and while loading is still true; then the guard is released |
| `PastimeLoader.SceneLoader.Run` | Runtime/SceneLoader/SceneLoader.cs:44-47 | the loading screen receives exactly `ScreenCalls` for the group's profile and the run's reports; the group loader's run is a `GroupRun`: `LoadScenes`'s outcome, reports and engine requests with duplicates not reloaded |
| `PastimeLoader.SceneLoader.ShowStart` | Runtime/SceneLoader/SceneLoader.cs:45 | the screen is played before the group loader runs exactly when the group has a loading profile |
| `PastimeLoader.SceneLoader.ShowRest` | Runtime/SceneLoader/SceneLoader.cs:46-47 | after the run the screen has shown every report and, once the load completed, is stopped, so that all its calls are `ScreenCalls` |
| `PastimeLoader.SceneLoader.RunLoader` | Runtime/SceneLoader/SceneLoader.cs:46 | the group becomes the loader's active group; stuck unloading exactly when the unload batch never finishes, and then no reports and only the unload requests; otherwise the reports are the load batch's polling trace and the engine receives the unloads, the loads of the group scenes not already present, and, once the loads finished, the activation of the first flagged entry |
| `PastimeLoader.SceneLoader.LoadSceneGroup` | Runtime/SceneLoader/SceneLoader.cs:37-63 | a rejected or empty call changes no history, event list, screen or engine; an empty one logs the error and ends with the guard off; a started call's outcome, reports and engine requests are those of a `GroupRun` (as for `RunLoader`) and the screen gets `ScreenCalls`; a completed load moves the history, fires the event once and ends with the guard off; a load still waiting keeps the guard set and the history unchanged |
| `PastimeLoader.SceneLoader.Proceed` | Runtime/SceneLoader/SceneLoader.cs:45-57 | the run under the loading screen is a `GroupRun`; once it completed the history moves on, the event fires once and the guard is released; otherwise the guard stays set and history and events are unchanged |
| `PastimeLoader.OverlappingCallIsDropped` | Runtime/SceneLoader/SceneLoader.cs:38-39 | a call made while a started load is running is rejected and changes neither the guard, the history, the error log nor the events |
| `PastimeLoader.SceneGroupLoader.LoadScenes` | Runtime/SceneLoader/SceneGroupLoader.cs:17-47 | (`LoadRun`) the group becomes active; stuck unloading exactly when the unload batch never finishes; the engine receives the unload requests, then (only once the unload batch is done) one load per group scene whose name was not in the pre-unload snapshot, in order, then (only once all loads are done) the activation of the first flagged entry; the reports are the polling trace of the load batch |
| `PastimeScenes.SceneReference.constructor` | Runtime/SceneReference/SceneReference.cs:20-25 | a new reference has no asset, an empty path and GUID, and the empty scene name |
| `PastimeScenes.SceneReference.ScenePath` | Runtime/SceneReference/SceneReference.cs:30 | the getter returns the stored path, and the scene name is the name of that path |
| `PastimeScenes.SceneReference.SceneGuid` | Runtime/SceneReference/SceneReference.cs:35 | the getter returns the stored GUID |
| `PastimeScenes.SceneReference.SceneName` | Runtime/SceneReference/SceneReference.cs:40 | the name holds no separator and is a prefix of the path's last component |
| `PastimeScenes.SceneReference.UpdateScenePathAndGuid` | Runtime/SceneReference/SceneReference.cs:46-52 | with an asset, the path is the asset's and the GUID is that path's; without one, neither changes |
| `PastimeScenes.SceneReference.RestoreAfterDeserialize` | Runtime/SceneReference/SceneReference.cs:77-86 | an empty path with a GUID is restored from the GUID, any other path is kept; a non-empty path reloads the asset from it |
| `PastimeScenes.SceneGroup.UseLoadingScreen` | Runtime/SceneLoader/Scenes/SceneGroup.cs:17 | holds exactly when a loading profile is assigned |
| `PastimeScenes.SceneGroup.UseInTransition` | Runtime/SceneLoader/Scenes/SceneGroup.cs:18 | holds exactly when an in-transition is assigned |
| `PastimeScenes.SceneGroup.UseOutTransition` | Runtime/SceneLoader/Scenes/SceneGroup.cs:19 | holds exactly when an out-transition is assigned |
| `PastimeScenes.NewSceneGroup` | Runtime/SceneLoader/Scenes/SceneGroup.cs:14-19 | a new group has a delay of 0.5, no scenes, and none of loading screen, in- or out-transition in use |
| `ScenePaths.FileNameWithoutExtension` | Runtime/SceneReference/SceneReference.cs:40 | the name contains no separator and is a prefix of the path's file name |
| `ScenePaths.SceneNameOfAssetPath` | Runtime/SceneReference/SceneReference.cs:40 | the name of `dir/stem.unity` is `stem`, also when the stem contains dots |
| `ScenePaths.PlainNameIsKept` | Runtime/SceneReference/SceneReference.cs:40 | a last component without '.' is the name whole |
| `ScenePaths.EmptyPathHasEmptyName` | Runtime/SceneReference/SceneReference.cs:20 | the default empty path has the empty name |
| `ScriptableScenes.SceneData.GetSceneName` | Runtime/Scenes/SceneGroup.cs:35-45 | the stored path becomes its completion and the result is the name of that completion |
| `ScriptableScenes.SceneNameOf` | Runtime/Scenes/SceneGroup.cs:35-44 | the name holds no separator and is a prefix of the completed path's last component |
| `ScriptableScenes.NormalizedShape` | Runtime/Scenes/SceneGroup.cs:36-41 | an empty path stays empty; any other path is a prefix of its completion, which ends in `.unity` in any case; a path already ending so is kept |
| `ScriptableScenes.NormalizedIdempotent` | Runtime/Scenes/SceneGroup.cs:39-41 | completing a path twice is completing it once |
| `ScriptableScenes.SceneNameStable` | Runtime/Scenes/SceneGroup.cs:39-44 | a second `GetSceneName` returns the same name as the first |
| `ScriptableScenes.NameOfScenePath` | Runtime/Scenes/SceneGroup.cs:44 | the name of an entry stored as `dir/stem.unity` is `stem` |
| `ScriptableScenes.NameOfBarePath` | Runtime/Scenes/SceneGroup.cs:39-44 | an entry stored without the extension is named by its whole last component, dots included |
| `ScriptableScenes.BareTextFileName` | Runtime/Scenes/SceneGroup.cs:39-44 | `dir/Foo.txt` is named `Foo.txt` |
| `ScriptableScenes.SceneGroup.UseLoadingScreen` | Runtime/Scenes/SceneGroup.cs:15-17 | holds exactly when a loading profile is assigned |
| `ScriptableScenes.SceneGroup.UseInTransition` | Runtime/Scenes/SceneGroup.cs:19-21 | holds exactly when an in-transition is assigned |
| `ScriptableScenes.SceneGroup.UseOutTransition` | Runtime/Scenes/SceneGroup.cs:23-25 | holds exactly when an out-transition is assigned |
| `ScriptableScenes.NewSceneGroup` | Runtime/Scenes/SceneGroup.cs:12-25 | a new group has a delay of 0.5, no scenes, and none of loading screen, in- or out-transition in use |
| `ScriptableLoader.RequestedPathsCount` | Runtime/SceneGroupLoader.cs:26-31 | at most one request per entry, and one per entry with reload |
| `ScriptableLoader.RequestedPathsMembers` | Runtime/SceneGroupLoader.cs:26-31 | a path is requested exactly when it is the completion of an entry that is not skipped by completed name |
| `ScriptableLoader.RequestedPathsWithReload` | Runtime/SceneGroupLoader.cs:27 | with reload, every entry's completed path is requested, in list order |
| `ScriptableLoader.RequestedPathsEndInUnity` | Runtime/SceneGroupLoader.cs:27-29 | every non-empty requested path ends in `.unity` |
| `ScriptableLoader.RequestEntry` | Runtime/SceneGroupLoader.cs:27-30 | the entry's path is completed; a load is requested, by the completed path, exactly when reload is set or the name is not in the snapshot |
| `ScriptableLoader.RequestEntryAt` | Runtime/SceneGroupLoader.cs:26-31 | the entry at the index and those before it hold their completed paths, every other entry holds its old path or its completed one, and a load is requested, by the completed path, exactly when reloading or the entry's name was not loaded before |
| `ScriptableLoader.RequestNext` | Runtime/SceneGroupLoader.cs:26-31 | one more iteration of the request loop: the entries up to the index hold completed paths, and the requests so far, the engine's calls and the batch's handles are those of `RequestedPaths` on the entries up to the index |
| `ScriptableLoader.RequestEntryLoads` | Runtime/SceneGroupLoader.cs:24-31 | every entry's stored path is completed, also for an entry listed twice; the engine receives exactly the loads of `RequestedPaths`, and the batch holds one fresh handle per load |
| `ScriptableLoader.LoadEntries` | Runtime/SceneGroupLoader.cs:24-47 | the paths are completed; the reports are the polling trace of the load batch; the engine receives the loads and, once all are done, the activation of the first flagged entry by its completed path |
| `ScriptableLoader.SceneGroupLoader.LoadScenes` | Runtime/SceneGroupLoader.cs:17-50 | (`LoadRun`, `PathsAfter`) as in the other namespace, with loads requested by completed path and skipped by completed name; stuck in the unload phase, no path is changed and no load requested |
| `ScriptableLoader.SceneLoader.Awake` | Runtime/SceneLoader.cs:22-32 | the boot scene name is passed verbatim to the group loader; an empty one logs exactly the boot-name error |
| `ScriptableLoader.SceneLoader.Begin` | Runtime/SceneLoader.cs:35-58 | a running load rejects the call and changes nothing; an empty group logs the error and leaves the guard off; a non-empty group sets the guard |
| `ScriptableLoader.SceneLoader.Finish` | Runtime/SceneLoader.cs:47-54 | the history moves on as `AfterLoad` says and the guard is released |
| `ScriptableLoader.SceneLoader.Run` | Runtime/SceneLoader.cs:43-45 | the loading screen receives exactly `ScreenCalls` for the group's profile and the run's reports; the group loader's run is a `GroupRun` and the entries' paths are as `PathsAfter` says |
| `ScriptableLoader.SceneLoader.ShowStart` | Runtime/SceneLoader.cs:43 | the screen is played before the group loader runs exactly when the group has a loading profile |
| `ScriptableLoader.SceneLoader.ShowRest` | Runtime/SceneLoader.cs:44-45 | after the run the screen has shown every report and, once the load completed, is stopped |
| `ScriptableLoader.SceneLoader.RunLoader` | Runtime/SceneLoader.cs:44 | the group becomes the loader's active group; stuck unloading exactly when the unload batch never finishes, with no reports, only the unload requests and no path changed; otherwise every entry's path is completed, the reports are the load batch's polling trace and the engine receives the unloads, the loads by completed path of the entries not already present, and, once the loads finished, the activation of the first flagged entry |
| `ScriptableLoader.SceneLoader.LoadSceneGroup` | Runtime/SceneLoader.cs:34-60 | a rejected or empty call changes no history, screen, engine or entry path; an empty one logs the error and ends with the guard off; a started call's outcome, reports, engine requests and paths are those of a `GroupRun` (as for `RunLoader`) and the screen gets `ScreenCalls`; a completed load moves the history and ends with the guard off; a load still waiting keeps the guard set |
| `ScriptableLoader.SceneLoader.Proceed` | Runtime/SceneLoader.cs:43-54 | the run under the loading screen is a `GroupRun` with paths as `PathsAfter` says; once it completed the history moves on and the guard is released; otherwise the guard stays set and the history is unchanged |
| `GroupLoading.Snapshot` | Runtime/SceneLoader/SceneGroupLoader.cs:19-21 | the snapshot lists the name of every engine scene, in engine order |
| `GroupLoading.LoadedOthers` | Runtime/SceneLoader/SceneGroupLoader.cs:51-55 | at most one candidate per scene, and never the boot scene |
| `GroupLoading.UnloadCandidates` | Runtime/SceneLoader/SceneGroupLoader.cs:51-55 | fewer candidates than engine scenes (the scene at index 0 is never one), and never the boot scene |
| `GroupLoading.UnloadCandidatesExactly` | Runtime/SceneLoader/SceneGroupLoader.cs:51-55 | a name is an unload candidate exactly when a loaded scene at index 1 or later, not the boot scene, carries it |
| `GroupLoading.UnloadScenes` | Runtime/SceneLoader/SceneGroupLoader.cs:49-67 | one unload request per candidate; the wait ends exactly when the batch of accepted (non-null) handles is done within the observations |
| `GroupLoading.RequestUnloads` | Runtime/SceneLoader/SceneGroupLoader.cs:57-62 | the engine receives one unload per candidate, in order, and only the non-null handles enter the batch |
| `GroupLoading.Requested` | Runtime/SceneLoader/SceneGroupLoader.cs:26-30 | at most one request per entry, and one per entry with reload |
| `GroupLoading.SharedSceneUnloadedNotReloaded` | Runtime/SceneLoader/SceneGroupLoader.cs:19-30 | a loaded scene, not the boot scene, that the new group lists again is an unload candidate and, without reload, is not requested |
| `GroupLoading.RequestedMembers` | Runtime/SceneLoader/SceneGroupLoader.cs:26-30 | a target is requested exactly when some entry with it is not skipped |
| `GroupLoading.RequestedByName` | Runtime/SceneLoader/SceneGroupLoader.cs:27-28 | loading by name: a scene is requested exactly when it is in the group and, without reload, not in the pre-unload snapshot |
| `GroupLoading.RequestedWithReload` | Runtime/SceneLoader/SceneGroupLoader.cs:27 | with reload, every entry is requested, in list order |
| `GroupLoading.RequestedNothingWhenAllPresent` | Runtime/SceneLoader/SceneGroupLoader.cs:19-27 | without reload, nothing is requested when every group scene was in the snapshot |
| `GroupLoading.RequestLoads` | Runtime/SceneLoader/SceneGroupLoader.cs:24-30 | the engine receives one additive load per requested scene, in list order, and the batch holds one fresh handle per load |
| `GroupLoading.FirstActive` | Runtime/SceneLoader/SceneGroupLoader.cs:41-44 | the chosen index is flagged and no earlier entry is; with no result, no entry is flagged |
| `GroupLoading.FirstActiveExample` | Runtime/SceneLoader/SceneGroupLoader.cs:41-44 | with entries A (off), B (on), C (on), B is chosen |
| `GroupLoading.ActivateFirst` | Runtime/SceneLoader/SceneGroupLoader.cs:41-44 | the engine receives one activation, for the first flagged entry's path, or none when no entry is flagged |
| `GroupLoading.PollLoading` | Runtime/SceneLoader/SceneGroupLoader.cs:32-39 | activation is off before polling; each poll at which the batch is not done reports its mean progress; during the wait after the j-th report the handles carry activation exactly when one of the first j+1 reports reached 0.9; afterwards activation is on exactly when some report reached 0.9 |
| `GroupLoading.PollLoop` | Runtime/SceneLoader/SceneGroupLoader.cs:33-39 | the loop's handles follow the engine's observations; each report is the mean progress of a batch not done at that poll; it stops at the first poll that finds the batch done or when the observations run out |
| `GroupLoading.AwaitAdvance` | Runtime/SceneLoader/SceneGroupLoader.cs:38 | the handles as they stand during the wait are recorded, with the activation the reports so far call for, and the engine advances them by one observation |
| `GroupLoading.PollOnce` | Runtime/SceneLoader/SceneGroupLoader.cs:33-36 | one poll: done exactly when every handle is done; otherwise the report is the mean progress and activation is switched on when it is at least 0.9 |
| `GroupLoading.PollThenActivate` | Runtime/SceneLoader/SceneGroupLoader.cs:32-44 | the polling trace, then the activation calls only if the loads finished |
| `GroupLoading.PollFinishesIffDone` | Runtime/SceneLoader/SceneGroupLoader.cs:33 | the loop finishes exactly when some poll the observations allow finds the batch done |
| `GroupLoading.ReportsInUnitRange` | Runtime/SceneLoader/SceneGroupLoader.cs:34 | when the engine reports progress in [0, 1], every reported progress is in [0, 1] |
| `OperationGroup.WithActivation` | Runtime/SceneLoader/SceneGroupLoader.cs:79-83 | each handle gets the flag; progress and done-ness stay |
| `OperationGroup.AsyncOperationGroup.AllowSceneActivation` | Runtime/SceneLoader/SceneGroupLoader.cs:79-83 | the flag is set on every held handle and nothing else changes |
| `OperationGroup.AsyncOperationGroup.Add` | Runtime/SceneLoader/SceneGroupLoader.cs:61 | the handle is appended to the batch |
| `OperationGroup.AsyncOperationGroup.Progress` | Runtime/SceneLoader/SceneGroupLoader.cs:72 | 0 for an empty batch, otherwise the mean of the handles' progress |
| `OperationGroup.AsyncOperationGroup.IsDone` | Runtime/SceneLoader/SceneGroupLoader.cs:73 | holds exactly when every handle is done |
| `OperationGroup.MeanProgressBounds` | Runtime/SceneLoader/SceneGroupLoader.cs:72 | the batch's progress lies between the smallest and the largest handle progress |
| `OperationGroup.EmptyBatch` | Runtime/SceneLoader/SceneGroupLoader.cs:72-73 | an empty batch has progress 0 and is done at once |
| `OperationGroup.ActivationKeepsProgress` | Runtime/SceneLoader/SceneGroupLoader.cs:72-83 | setting the flag changes neither the batch's progress nor whether it is done |
| `OperationGroup.ActivationOverwrites` | Runtime/SceneLoader/SceneGroupLoader.cs:79-83 | setting the flag twice leaves the second value |
| `OperationGroup.WaitUntilDone` | Runtime/SceneLoader/SceneGroupLoader.cs:64-66 | the wait ends exactly when the batch is done at some poll the observations allow, and then the batch is done |
| `LoadingProgress.Scaled` | Runtime/SceneLoader/Loading/LoadingProgress.cs:10 | the shown value times 0.9 is the reported value |
| `LoadingProgress.Report` | Runtime/SceneLoader/Loading/LoadingProgress.cs:5-11 | one invocation per subscriber, in order, each with the value divided by 0.9 |
| `LoadingProgress.ReportWithoutSubscribers` | Runtime/Loading/LoadingProgress.cs:10 | with no subscriber a report does nothing |
| `LoadingProgress.ReportEndpoints` | Runtime/SceneLoader/Loading/LoadingProgress.cs:7-10 | a report of 0.9 shows 1 and a report of 0 shows 0 |
| `LoadingProgress.ScaledMonotone` | Runtime/Loading/LoadingProgress.cs:10 | the scaling preserves order |
| `LoadingProgress.ScaledUnclamped` | Runtime/Loading/LoadingProgress.cs:10 | any report above 0.9 shows more than 1 |
| `LoadingProgress.ScreenCalls` | Runtime/SceneLoader/SceneLoader.cs:45-47 | no screen calls without a profile; otherwise play first, one shown value per report (the report over 0.9), and stop last once the load completed |
| `BuildSettings.IsSceneInBuildSettings` | Editor/SceneGroupEditor.cs:140-143 | holds exactly when some build entry has the path |
| `BuildSettings.IsSceneEnabledInBuildSettings` | Editor/SceneReference/SceneReferencePropertyDrawer.cs:127-129 | holds exactly when some build entry has the path and is enabled |
| `BuildSettings.WithScene` | Editor/SceneReference/SceneReferencePropertyDrawer.cs:79-85 | a present path leaves the list; otherwise the old list followed by one entry for the path; afterwards the path is present, and enabled if it was added |
| `BuildSettings.WithSceneKeepsOthers` | Editor/SceneGroupEditor.cs:146-157 | adding a scene changes for no other path whether it is present or enabled |
| `BuildSettings.WithSceneIdempotent` | Editor/SceneGroupEditor.cs:148 | adding twice is adding once |
| `PastimeGroupEditor.CountActive` | Editor/SceneLoader/SceneGroupEditor.cs:86-93 | the count is at most the number of entries, and 0 exactly when no entry is flagged |
| `PastimeGroupEditor.CheckActiveScenes` | Editor/SceneLoader/SceneGroupEditor.cs:85-95 | true exactly when more than one entry is flagged |
| `PastimeGroupEditor.CountActiveIgnoresOrder` | Editor/SceneLoader/SceneGroupEditor.cs:87-93 | the count, and so the warning, does not depend on the order of the entries |
| `PastimeGroupEditor.AtMostOneFlagIsFine` | Editor/SceneLoader/SceneGroupEditor.cs:86-94 | an empty list, or one with at most one flagged entry, gives no warning |
| `PastimeGroupEditor.TwoFlagsWarn` | Editor/SceneLoader/SceneGroupEditor.cs:87-94 | two flagged entries always give the warning |
| `PastimeGroupEditor.SceneValidationContainer.OnToggleChanged` | Editor/SceneLoader/SceneGroupEditor.cs:69-78 | the container holds the warning exactly when the check fires, and is empty otherwise |
| `ScriptableGroupEditor.ClearedExcept` | Editor/SceneGroupEditor.cs:99-107 | every flag except the one at the index is cleared; paths, length and the entry at the index stay |
| `ScriptableGroupEditor.ClearedExceptIdempotent` | Editor/SceneGroupEditor.cs:99-107 | clearing twice is clearing once |
| `ScriptableGroupEditor.SceneGroupEditor.OnEnable` | Editor/SceneGroupEditor.cs:15-30 | the editor holds the group's entries and the project's scenes, with no dropdown choice |
| `ScriptableGroupEditor.SceneGroupEditor.SetOnlyActiveScene` | Editor/SceneGroupEditor.cs:99-107 | the list becomes `ClearedExcept` of the old list at the index |
| `ScriptableGroupEditor.SceneGroupEditor.OnToggle` | Editor/SceneGroupEditor.cs:84-89 | an unchanged toggle changes nothing; switching off changes only that entry; switching on leaves that entry as the only flagged one, paths unchanged |
| `ScriptableGroupEditor.SceneGroupEditor.DrawListItem` | Editor/SceneGroupEditor.cs:43-96 | the tick shows exactly when the entry's path is in the build list; the build list changes only when "Add to Build" is clicked, and then as `WithScene` says; the toggle leaves the list as `OnToggle` says (unchanged, that entry switched off, or that entry the only flagged one with paths unchanged) |
| `ScriptableGroupEditor.SceneGroupEditor.OnAddElement` | Editor/SceneGroupEditor.cs:160-169 | an entry with an empty path and no flag is appended; the others stay |
| `ScriptableGroupEditor.SceneGroupEditor.AddSelectedSceneToList` | Editor/SceneGroupEditor.cs:125-137 | an unflagged entry for the chosen project scene is appended; the others stay |
| `ScriptableGroupEditor.SceneGroupEditor.DrawSceneDropdown` | Editor/SceneGroupEditor.cs:110-122 | the choice is kept, and the button appends the chosen scene only when a scene is chosen |
| `ScriptableGroupEditor.AddSceneToBuildSettings` | Editor/SceneGroupEditor.cs:146-157 | the build list becomes `WithScene` of the old list: unchanged when present, otherwise the old entries then the path, enabled |
| `SceneReferenceDrawer.BuildStatus` | Editor/SceneReference/SceneReferencePropertyDrawer.cs:98-105 | missing exactly when no entry has the path; disabled exactly when some entry has it and none of those is enabled; valid exactly when an enabled entry has it |
| `SceneReferenceDrawer.GetStatusText` | Editor/SceneReference/SceneReferencePropertyDrawer.cs:114-121 | no status gets the `"Unknown status"` fallback |
| `SceneReferenceDrawer.StatusTextsDistinct` | Editor/SceneReference/SceneReferencePropertyDrawer.cs:114-121 | the three statuses have three different tooltips |
| `SceneReferenceDrawer.EnabledFirst` | Editor/SceneReference/SceneReferencePropertyDrawer.cs:87-96 | only the first entry with the path can change, and it becomes enabled; paths and length stay; with no match the list is unchanged |
| `SceneReferenceDrawer.EnabledFirstAt` | Editor/SceneReference/SceneReferencePropertyDrawer.cs:89-93 | when the first match is at index i, the result is the list with entry i enabled |
| `SceneReferenceDrawer.OfferedActionMakesValid` | Editor/SceneReference/SceneReferencePropertyDrawer.cs:64-96 | adding a missing scene, or enabling a disabled one, makes its status valid |
| `SceneReferenceDrawer.EnablingKeepsOthers` | Editor/SceneReference/SceneReferencePropertyDrawer.cs:87-96 | enabling one scene changes the status of no other path |
| `SceneReferenceDrawer.AddSceneToBuildSettings` | Editor/SceneReference/SceneReferencePropertyDrawer.cs:79-85 | the build list becomes `WithScene` of the old list |
| `SceneReferenceDrawer.EnableSceneInBuildSettings` | Editor/SceneReference/SceneReferencePropertyDrawer.cs:87-96 | the build list becomes `EnabledFirst` of the old list |
| `SceneReferenceDrawer.SettingsMenu` | Editor/SceneReference/SceneReferencePropertyDrawer.cs:58-74 | the build window is always offered first; "Add" exactly when missing, "Enable" exactly when disabled, nothing else exactly when valid |
| `SceneReferenceDrawer.ChooseMenuItem` | Editor/SceneReference/SceneReferencePropertyDrawer.cs:61-71 | opening the window leaves the build list; "Add" and "Enable" change it as their methods say |
| `SceneReferenceDrawer.SceneReferenceDrawer.SetSceneFieldStatus` | Editor/SceneReference/SceneReferencePropertyDrawer.cs:107-112 | the colour, the status and the button display are the given ones |
| `SceneReferenceDrawer.SceneReferenceDrawer.HandleSceneBuildStatus` | Editor/SceneReference/SceneReferencePropertyDrawer.cs:98-105 | the status is `BuildStatus`; the button shows exactly when the status is not valid; the colour is red, orange or grey by status |
| `SceneReferenceDrawer.SceneReferenceDrawer.Refresh` | Editor/SceneReference/SceneReferencePropertyDrawer.cs:42-45 | after a timer tick the status, the button and the field colour (red, orange or grey by status) are as above and the tooltip is the status text |

## Left out

- Real-time waiting: `Task.Yield`, `Task.Delay(100)` and the post-load `loadingDelay` wait are abstract wait steps. The model does not tell seconds from milliseconds between the two namespaces.
- Async scheduling: the phases run one after the other. A second `LoadSceneGroup` can only arrive between `Begin` and `Finish`.
- Engine execution: how a request changes the engine's scene list is not modelled. The list is fixed (`SceneManager.scenes`), since the loaders read it only before their first request.
- Floating point: progress, the mean and the division by 0.9 are `real`. Single-precision rounding is not modelled.
- Exceptions: there is no `try`/`finally`, and a fault inside the group loader would leave the guard set. Only the normal exits are modelled.
- Null references: a null group, a null entry, a null scene reference, a null player or a null group loader (`?.`) are not modelled. Strings are never null; the source's null-or-empty checks are emptiness checks.
- Path separators: both '/' and '\' separate directories (the Windows behaviour of .NET). The volume separator ':' gets no special treatment, and case folding covers ASCII letters only.
- `Debug.Log` lines of the `ScriptableSceneLoader` group loader: only their effect on the entries' paths (through `GetSceneName`) is modelled.
- Transition players: they exist only as commented placeholders.
- The loading-screen player's widgets (canvas, slider, sprite) and its event re-subscription: the model records only play, shown value and stop.
- SceneReferenceDrawer.GetStatusText: the `"Unknown status"` arm cannot be reached with the three statuses, so it is left out.
- GroupLoading.UnloadCandidates: on an empty scene list it yields no candidates, where `Enumerable.Range(1, sceneCount - 1)` (Runtime/SceneLoader/SceneGroupLoader.cs:51) throws; the engine always holds at least one scene.
- PastimeScenes.SceneReference.RestoreAfterDeserialize: runs at once, where the source defers it through `EditorApplication.delayCall` (Runtime/SceneReference/SceneReference.cs:77); no other editor work is modelled between the two.
- OperationGroup.Observe: the engine's observations ignore `allowSceneActivation`, so a load may be observed done while activation is still off; Unity holds such a load at 0.9 until activation is allowed. The model states the flag the engine sees at each wait (`PollLoading`) but does not tie completion to it.
- ScriptableScenes.Normalized: its properties are stated by the lemmas `NormalizedShape` and `NormalizedIdempotent`, not by ensures on the function itself.
- SceneReferenceDrawer.ChooseMenuItem: opening the build player window is an editor window with no modelled state.
- Editor layout: rectangles, labels, the red row background, icons, the object field and `ApplyModifiedProperties` are not modelled.
- Colours are exact reals; the `Color32(40, 40, 40)` grey is 40/255 per channel.
- The serialized scene list of the `ScriptableSceneLoader` editor is a sequence of values. `InsertArrayElementAtIndex` copies the last element before both fields are overwritten, which leaves no trace in the model.
- The project's scene paths (`AssetDatabase.FindAssets`) and the asset-database lookups of `SceneReference` are parameters.
- The duplicate-active warning is modelled with its text as written, including the missing space between "will" and "cause".
- Editor/SceneLoaderEditor.cs, Editor/SceneLoader/SceneLoaderEditor.cs and Editor/Utils/EditorStyleUtils.cs are UI construction and are not part of this model. The same holds for the singleton helpers and the loading profiles.
