/**
 * The editor's build list (`EditorBuildSettings.scenes`): the scenes that go
 * into a player build, each with its asset path and an `enabled` flag. Both
 * editor namespaces read it with the same two queries and extend it with the
 * same effect, so the queries and the effect's specification live here.
 *
 * Reading `EditorBuildSettings.scenes` gives a copy of the list, and writing
 * it replaces the list; the entries are therefore values here.
 */
module BuildSettings {

  datatype BuildScene = BuildScene(path: string, enabled: bool)

  /** The build list itself, the one piece of editor state both editors change. */
  class EditorBuildSettings {
    var scenes: seq<BuildScene>

    constructor (scenes: seq<BuildScene>)
      ensures this.scenes == scenes
    {
      this.scenes := scenes;
    }
  }

  /** `scenes.Any(s => s.path == path)`. */
  function IsSceneInBuildSettings(scenes: seq<BuildScene>, path: string): (r: bool)
    ensures r <==> exists i :: 0 <= i < |scenes| && scenes[i].path == path
  {
    if |scenes| == 0 then false
    else scenes[0].path == path || IsSceneInBuildSettings(scenes[1..], path)
  }

  /** `scenes.Any(s => s.path == path && s.enabled)`. */
  function IsSceneEnabledInBuildSettings(scenes: seq<BuildScene>, path: string): (r: bool)
    ensures r <==> exists i :: 0 <= i < |scenes| && scenes[i].path == path && scenes[i].enabled
    ensures r ==> IsSceneInBuildSettings(scenes, path)
  {
    if |scenes| == 0 then false
    else (scenes[0].path == path && scenes[0].enabled) || IsSceneEnabledInBuildSettings(scenes[1..], path)
  }

  /**
   * The build list after a scene has been added to it: a path already in
   * the list leaves it as it is; otherwise the scene is appended, enabled.
   */
  function WithScene(scenes: seq<BuildScene>, path: string): (r: seq<BuildScene>)
    ensures IsSceneInBuildSettings(scenes, path) ==> r == scenes
    ensures !IsSceneInBuildSettings(scenes, path) ==> |r| == |scenes| + 1 && r[..|scenes|] == scenes
    ensures IsSceneInBuildSettings(r, path)
    ensures !IsSceneInBuildSettings(scenes, path) ==> IsSceneEnabledInBuildSettings(r, path)
  {
    if IsSceneInBuildSettings(scenes, path) then scenes
    else
      var r := scenes + [BuildScene(path, true)];
      assert r[|scenes|].path == path && r[|scenes|].enabled;
      r
  }

  /** Adding a scene changes whether any other path is in the list, or enabled there, in no way. */
  lemma WithSceneKeepsOthers(scenes: seq<BuildScene>, path: string, other: string)
    requires other != path
    ensures IsSceneInBuildSettings(WithScene(scenes, path), other) == IsSceneInBuildSettings(scenes, other)
    ensures IsSceneEnabledInBuildSettings(WithScene(scenes, path), other) == IsSceneEnabledInBuildSettings(scenes, other)
  {
    var r := WithScene(scenes, path);
    if !IsSceneInBuildSettings(scenes, path) {
      if IsSceneInBuildSettings(r, other) {
        var i :| 0 <= i < |r| && r[i].path == other;
        assert i < |scenes| && scenes[i] == r[i];
      }
      if IsSceneEnabledInBuildSettings(r, other) {
        var i :| 0 <= i < |r| && r[i].path == other && r[i].enabled;
        assert i < |scenes| && scenes[i] == r[i];
      }
      if IsSceneInBuildSettings(scenes, other) {
        var i :| 0 <= i < |scenes| && scenes[i].path == other;
        assert r[i] == scenes[i];
      }
      if IsSceneEnabledInBuildSettings(scenes, other) {
        var i :| 0 <= i < |scenes| && scenes[i].path == other && scenes[i].enabled;
        assert r[i] == scenes[i];
      }
    }
  }

  /** Adding twice is adding once. */
  lemma WithSceneIdempotent(scenes: seq<BuildScene>, path: string)
    ensures WithScene(WithScene(scenes, path), path) == WithScene(scenes, path)
  {
  }
}
