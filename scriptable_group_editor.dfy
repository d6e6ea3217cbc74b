/**
 * The inspector of a `ScriptableSceneLoader` scene group: the reorderable
 * list of scene entries with their exclusive "active scene" toggle, the
 * per-row build-list check with its "Add to Build" button, and the dropdown
 * that appends a project scene to the list.
 *
 * The editor works on the serialized form of the group's entries, a list of
 * (path, flag) values. The project's scene paths (from the asset database)
 * are given to the constructor; the user's clicks and choices are parameters.
 */
module ScriptableGroupEditor {
  import opened BuildSettings

  /** The serialized form of one `SceneData` entry. */
  datatype SceneEntry = SceneEntry(scenePath: string, isActiveScene: bool)

  /** The entries after every flag except the one at `k` has been cleared. */
  function ClearedExcept(entries: seq<SceneEntry>, k: int): (r: seq<SceneEntry>)
    ensures |r| == |entries|
    ensures forall i :: 0 <= i < |entries| ==> r[i].scenePath == entries[i].scenePath
    ensures forall i :: 0 <= i < |entries| && i != k ==> !r[i].isActiveScene
    ensures 0 <= k < |entries| ==> r[k] == entries[k]
  {
    seq(|entries|, i requires 0 <= i < |entries| =>
      if i == k then entries[i] else entries[i].(isActiveScene := false))
  }

  /** Clearing around `k` twice is clearing once. */
  lemma ClearedExceptIdempotent(entries: seq<SceneEntry>, k: int)
    ensures ClearedExcept(ClearedExcept(entries, k), k) == ClearedExcept(entries, k)
  {
  }

  class SceneGroupEditor {
    var sceneDataList: seq<SceneEntry>
    const availableScenes: seq<string>
    var selectedSceneIndex: int

    /** `OnEnable`: the group's entries, the project's scene paths, and no scene chosen in the dropdown. */
    constructor OnEnable(sceneDataList: seq<SceneEntry>, availableScenes: seq<string>)
      ensures this.sceneDataList == sceneDataList && this.availableScenes == availableScenes
      ensures selectedSceneIndex == -1
    {
      this.sceneDataList := sceneDataList;
      this.availableScenes := availableScenes;
      selectedSceneIndex := -1;
    }

    /** `SetOnlyActiveScene`: clears the flag of every entry but the one at `activeIndex`. */
    method SetOnlyActiveScene(activeIndex: int)
      modifies this`sceneDataList
      ensures sceneDataList == ClearedExcept(old(sceneDataList), activeIndex)
    {
      for i := 0 to |sceneDataList|
        invariant |sceneDataList| == |old(sceneDataList)|
        invariant forall j :: 0 <= j < i ==> sceneDataList[j] == ClearedExcept(old(sceneDataList), activeIndex)[j]
        invariant forall j :: i <= j < |sceneDataList| ==> sceneDataList[j] == old(sceneDataList)[j]
      {
        if i == activeIndex {
          continue;
        }
        sceneDataList := sceneDataList[i := sceneDataList[i].(isActiveScene := false)];
      }
    }

    /**
     * The toggle of row `index` after the user set it to `newIsActive`: a
     * change is stored, and switching a row on clears every other row.
     */
    method OnToggle(index: nat, newIsActive: bool)
      requires index < |sceneDataList|
      modifies this`sceneDataList
      ensures newIsActive == old(sceneDataList[index].isActiveScene) ==> sceneDataList == old(sceneDataList)
      ensures !newIsActive ==>
        sceneDataList == old(sceneDataList)[index := old(sceneDataList)[index].(isActiveScene := false)]
      ensures newIsActive && !old(sceneDataList[index].isActiveScene) ==>
        |sceneDataList| == |old(sceneDataList)| &&
        (forall i :: 0 <= i < |sceneDataList| ==> sceneDataList[i].scenePath == old(sceneDataList)[i].scenePath) &&
        (forall i :: 0 <= i < |sceneDataList| ==> (sceneDataList[i].isActiveScene <==> i == index))
    {
      if newIsActive != sceneDataList[index].isActiveScene {
        sceneDataList := sceneDataList[index := sceneDataList[index].(isActiveScene := newIsActive)];
        if newIsActive {
          SetOnlyActiveScene(index);
        }
      }
    }

    /**
     * One row of the list (`DrawListItems`): whether its scene is in the
     * build list (the tick), the toggle, and the "Add to Build" button,
     * which is drawn, and can be clicked, only when the scene is missing.
     */
    method DrawListItem(settings: EditorBuildSettings, index: nat, newIsActive: bool, addClicked: bool)
      returns (tick: bool)
      requires index < |sceneDataList|
      modifies this`sceneDataList, settings`scenes
      ensures tick <==> IsSceneInBuildSettings(old(settings.scenes), old(sceneDataList[index].scenePath))
      ensures settings.scenes ==
        if addClicked then WithScene(old(settings.scenes), old(sceneDataList[index].scenePath))
        else old(settings.scenes)
      ensures newIsActive == old(sceneDataList[index].isActiveScene) ==> sceneDataList == old(sceneDataList)
      ensures !newIsActive ==>
        sceneDataList == old(sceneDataList)[index := old(sceneDataList)[index].(isActiveScene := false)]
      ensures newIsActive && !old(sceneDataList[index].isActiveScene) ==>
        |sceneDataList| == |old(sceneDataList)| &&
        (forall i :: 0 <= i < |sceneDataList| ==> sceneDataList[i].scenePath == old(sceneDataList)[i].scenePath) &&
        (forall i :: 0 <= i < |sceneDataList| ==> (sceneDataList[i].isActiveScene <==> i == index))
    {
      var scenePath := sceneDataList[index].scenePath;
      var isInBuildSettings := IsSceneInBuildSettings(settings.scenes, scenePath);
      tick := isInBuildSettings;
      OnToggle(index, newIsActive);
      if isInBuildSettings {
        return;
      }
      if addClicked {
        AddSceneToBuildSettings(settings, scenePath);
      }
    }

    /** `OnAddElement`: appends an entry with an empty path and no flag. */
    method OnAddElement()
      modifies this`sceneDataList
      ensures sceneDataList == old(sceneDataList) + [SceneEntry("", false)]
    {
      sceneDataList := sceneDataList + [SceneEntry("", false)];
    }

    /** `AddSelectedSceneToList`: appends an entry for the scene chosen in the dropdown, unflagged. */
    method AddSelectedSceneToList()
      requires 0 <= selectedSceneIndex < |availableScenes|
      modifies this`sceneDataList
      ensures sceneDataList == old(sceneDataList) + [SceneEntry(availableScenes[selectedSceneIndex], false)]
    {
      var selectedScenePath := availableScenes[selectedSceneIndex];
      sceneDataList := sceneDataList + [SceneEntry(selectedScenePath, false)];
    }

    /**
     * `DrawSceneDropdown`: the dropdown's choice (an index into the project's
     * scenes, or -1 for none) is kept, and the button appends the chosen
     * scene when there is one.
     */
    method DrawSceneDropdown(choice: int, clicked: bool)
      requires -1 <= choice < |availableScenes|
      modifies this`selectedSceneIndex, this`sceneDataList
      ensures selectedSceneIndex == choice
      ensures sceneDataList ==
        if clicked && choice >= 0 then old(sceneDataList) + [SceneEntry(availableScenes[choice], false)]
        else old(sceneDataList)
    {
      selectedSceneIndex := choice;
      if clicked && selectedSceneIndex >= 0 {
        AddSelectedSceneToList();
      }
    }
  }

  /**
   * `AddSceneToBuildSettings` of this editor: a scene already in the build
   * list is left alone; otherwise the list is copied into an array one
   * longer, the scene is put last, enabled, and the array becomes the list.
   */
  method AddSceneToBuildSettings(settings: EditorBuildSettings, scenePath: string)
    modifies settings`scenes
    ensures settings.scenes == WithScene(old(settings.scenes), scenePath)
  {
    var scenes := settings.scenes;
    if IsSceneInBuildSettings(settings.scenes, scenePath) {
      return;
    }
    var newScenes := new BuildScene[|scenes| + 1];
    for i := 0 to |scenes|
      invariant forall j :: 0 <= j < i ==> newScenes[j] == scenes[j]
    {
      newScenes[i] := scenes[i];
    }
    newScenes[|scenes|] := BuildScene(scenePath, true);
    settings.scenes := newScenes[..];
    assert settings.scenes == scenes + [BuildScene(scenePath, true)];
  }
}
