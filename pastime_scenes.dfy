/**
 * Authored data of the `Pastime.SceneLoader` namespace: `SceneReference`
 * (a scene asset with its stored path and GUID), `SceneData` and
 * `SceneGroup`.
 *
 * The editor's asset database is a parameter: a record of the lookups the
 * code makes (`GetAssetPath`, `AssetPathToGUID`, `GUIDToAssetPath`,
 * `LoadAssetAtPath`).
 */
module PastimeScenes {
  import opened SceneEngine
  import ScenePaths

  datatype AssetDatabase = AssetDatabase(
    assetPath: Asset -> string,
    pathToGuid: string -> string,
    guidToPath: string -> string,
    loadAtPath: string -> Option<Asset>)

  class SceneReference {
    var sceneAsset: Option<Asset>
    var scenePath: string
    var sceneGuid: string

    /** A new reference: no asset, empty path and GUID. */
    constructor ()
      ensures sceneAsset == None && scenePath == "" && sceneGuid == ""
      ensures SceneName() == ""
    {
      sceneAsset := None;
      scenePath := "";
      sceneGuid := "";
    }

    function ScenePath(): (path: string)
      reads this
      ensures path == scenePath
      ensures SceneName() == ScenePaths.FileNameWithoutExtension(path)
    {
      scenePath
    }

    function SceneGuid(): (guid: string)
      reads this
      ensures guid == sceneGuid
    {
      sceneGuid
    }

    /** The file name of `scenePath` without its extension. */
    function SceneName(): (name: string)
      reads this
      ensures forall c :: c in name ==> !ScenePaths.IsSeparator(c)
      ensures name <= ScenePaths.FileName(scenePath)
    {
      ScenePaths.FileNameWithoutExtension(scenePath)
    }

    /**
     * `UpdateScenePathAndGuid` (run by `OnValidate` and `OnBeforeSerialize`):
     * with an asset, the path is taken from it and the GUID from that path;
     * without one nothing changes.
     */
    method UpdateScenePathAndGuid(db: AssetDatabase)
      modifies this`scenePath, this`sceneGuid
      ensures sceneAsset.Some? ==>
        scenePath == db.assetPath(sceneAsset.value) && sceneGuid == db.pathToGuid(scenePath)
      ensures sceneAsset.None? ==> scenePath == old(scenePath) && sceneGuid == old(sceneGuid)
    {
      if sceneAsset.Some? {
        scenePath := db.assetPath(sceneAsset.value);
        sceneGuid := db.pathToGuid(scenePath);
      }
    }

    /**
     * The callback `OnAfterDeserialize` schedules: an empty path with a
     * non-empty GUID is restored from the GUID; then, when the path is
     * non-empty, the asset is reloaded from it.
     */
    method RestoreAfterDeserialize(db: AssetDatabase)
      modifies this`scenePath, this`sceneAsset
      ensures scenePath == if old(scenePath) == "" && sceneGuid != "" then db.guidToPath(sceneGuid) else old(scenePath)
      ensures sceneAsset == if scenePath != "" then db.loadAtPath(scenePath) else old(sceneAsset)
    {
      if scenePath == "" && sceneGuid != "" {
        scenePath := db.guidToPath(sceneGuid);
      }
      if scenePath != "" {
        sceneAsset := db.loadAtPath(scenePath);
      }
    }
  }

  datatype SceneData = SceneData(scene: SceneReference, isActiveScene: bool)

  datatype SceneGroup = SceneGroup(
    name: string,               // the asset's object name
    groupName: string,
    inTransition: Option<Asset>,
    outTransition: Option<Asset>,
    loadingProfile: Option<Asset>,
    loadingDelay: real,
    scenes: seq<SceneData>)
  {
    function UseLoadingScreen(): (used: bool)
      ensures used <==> loadingProfile != None
    {
      loadingProfile.Some?
    }

    function UseInTransition(): (used: bool)
      ensures used <==> inTransition != None
    {
      inTransition.Some?
    }

    function UseOutTransition(): (used: bool)
      ensures used <==> outTransition != None
    {
      outTransition.Some?
    }
  }

  /** A freshly created group asset: no profiles, a delay of 0.5 s and no scenes. */
  function NewSceneGroup(name: string): (g: SceneGroup)
    ensures g.loadingDelay == 0.5 && g.scenes == []
    ensures !g.UseLoadingScreen() && !g.UseInTransition() && !g.UseOutTransition()
  {
    SceneGroup(name, "", None, None, None, 0.5, [])
  }

  /** The objects a group's scene names are read from. */
  function References(scenes: seq<SceneData>): set<object> {
    set i | 0 <= i < |scenes| :: scenes[i].scene
  }

  /** The scene name of every entry, in list order. */
  function SceneNames(scenes: seq<SceneData>): (names: seq<string>)
    reads References(scenes)
    ensures |names| == |scenes|
    ensures forall i :: 0 <= i < |scenes| ==> names[i] == scenes[i].scene.SceneName()
  {
    seq(|scenes|, i requires 0 <= i < |scenes| reads References(scenes) => scenes[i].scene.SceneName())
  }

  /** The stored path of every entry, in list order. */
  function StoredPaths(scenes: seq<SceneData>): (paths: seq<string>)
    reads References(scenes)
    ensures |paths| == |scenes|
    ensures forall i :: 0 <= i < |scenes| ==> paths[i] == scenes[i].scene.scenePath
  {
    seq(|scenes|, i requires 0 <= i < |scenes| reads References(scenes) => scenes[i].scene.scenePath)
  }

  /** The `isActiveScene` flag of every entry, in list order. */
  function ActiveFlags(scenes: seq<SceneData>): (flags: seq<bool>)
    ensures |flags| == |scenes|
    ensures forall i :: 0 <= i < |scenes| ==> flags[i] == scenes[i].isActiveScene
  {
    seq(|scenes|, i requires 0 <= i < |scenes| => scenes[i].isActiveScene)
  }
}
