/**
 * Authored data of the `ScriptableSceneLoader` namespace: `SceneGroup` and
 * `SceneData`. Here a scene entry stores a bare path, and asking it for its
 * name first completes the stored path with the `.unity` extension.
 */
module ScriptableScenes {
  import opened SceneEngine
  import opened ScenePaths

  const SceneExtension: string := ".unity"

  /**
   * The stored path after `GetSceneName`: an empty path stays empty, a path
   * that ends in `.unity` (in any letter case) is kept, any other path gets
   * `.unity` appended.
   */
  function Normalized(p: string): string {
    if p == "" then ""
    else if EndsWithIgnoreCase(p, SceneExtension) then p
    else p + SceneExtension
  }

  /**
   * A completed path is empty exactly when the stored one is; otherwise it
   * extends the stored path and ends in `.unity`; a path that already ends
   * so is left as it is.
   */
  lemma NormalizedShape(p: string)
    ensures Normalized(p) == "" <==> p == ""
    ensures p != "" ==> p <= Normalized(p) && EndsWithIgnoreCase(Normalized(p), SceneExtension)
    ensures EndsWithIgnoreCase(p, SceneExtension) ==> Normalized(p) == p
  {
    if p != "" && !EndsWithIgnoreCase(p, SceneExtension) {
      var r := p + SceneExtension;
      forall j | |r| - |SceneExtension| <= j < |r| ensures r[j] == SceneExtension[j - |p|] {
      }
    }
  }

  /** The name `GetSceneName` returns for an entry whose stored path is `p`. */
  function SceneNameOf(p: string): (name: string)
    ensures forall c :: c in name ==> !IsSeparator(c)
    ensures name <= FileName(Normalized(p))
  {
    FileNameWithoutExtension(Normalized(p))
  }

  /** Completing a path twice is completing it once. */
  lemma NormalizedIdempotent(p: string)
    ensures Normalized(Normalized(p)) == Normalized(p)
  {
    NormalizedShape(p);
  }

  /** So an entry's name does not change once its path has been completed. */
  lemma SceneNameStable(p: string)
    ensures SceneNameOf(Normalized(p)) == SceneNameOf(p)
  {
    NormalizedIdempotent(p);
  }

  /**
   * The name of an entry stored as `dir/stem.unity` is `stem`.
   */
  lemma {:induction false} NameOfScenePath(dir: string, stem: string)
    requires forall c :: c in stem ==> !IsSeparator(c)
    ensures SceneNameOf(dir + "/" + stem + SceneExtension) == stem
  {
    var p := dir + "/" + stem + SceneExtension;
    assert p == (dir + "/" + stem) + SceneExtension;
    forall j | |p| - |SceneExtension| <= j < |p| ensures p[j] == SceneExtension[j - |dir + "/" + stem|] {
    }
    assert Normalized(p) == p;
    SceneNameOfAssetPath(dir, stem);
  }

  /**
   * The name of an entry stored without the extension is its last path
   * component whole, dots included: the appended `.unity` is what gets
   * stripped. So `Assets/Foo.txt` is named `Foo.txt`.
   */
  lemma {:induction false} NameOfBarePath(dir: string, stem: string)
    requires forall c :: c in stem ==> !IsSeparator(c)
    requires !EndsWithIgnoreCase(stem, SceneExtension)
    ensures SceneNameOf(dir + "/" + stem) == stem
  {
    var p := dir + "/" + stem;
    if |stem| < |SceneExtension| {
      SeparatorBlocksSuffix(p, |dir|, SceneExtension);
    } else {
      EndsWithOfTail(dir + "/", stem, SceneExtension);
    }
    assert Normalized(p) == dir + "/" + stem + SceneExtension;
    SceneNameOfAssetPath(dir, stem);
  }

  /** A suffix without separators cannot reach back over a separator. */
  lemma SeparatorBlocksSuffix(p: string, j: nat, suffix: string)
    requires |p| - |suffix| <= j < |p| && IsSeparator(p[j])
    requires forall c :: c in suffix ==> !IsSeparator(ToLower(c))
    ensures !EndsWithIgnoreCase(p, suffix)
  {
    var k := j - (|p| - |suffix|);
    assert suffix[k] in suffix;
    assert ToLower(p[j]) != ToLower(suffix[k]);
  }

  /** Whether a string ends with a suffix depends only on its last characters. */
  lemma EndsWithOfTail(x: string, t: string, suffix: string)
    requires |suffix| <= |t|
    ensures EndsWithIgnoreCase(x + t, suffix) <==> EndsWithIgnoreCase(t, suffix)
  {
    var p := x + t;
    forall j | |p| - |suffix| <= j < |p| ensures p[j] == t[j - |x|] {
    }
  }

  /** The example above, in any directory. */
  lemma BareTextFileName(dir: string)
    ensures SceneNameOf(dir + "/" + "Foo.txt") == "Foo.txt"
  {
    var stem := "Foo.txt";
    assert ToLower(stem[|stem| - |SceneExtension|]) != ToLower(SceneExtension[0]);
    assert forall c :: c in stem ==> !IsSeparator(c);
    NameOfBarePath(dir, stem);
  }

  class SceneData {
    var scenePath: string
    var isActiveScene: bool

    constructor (scenePath: string, isActiveScene: bool)
      ensures this.scenePath == scenePath && this.isActiveScene == isActiveScene
    {
      this.scenePath := scenePath;
      this.isActiveScene := isActiveScene;
    }

    /**
     * `GetSceneName`: completes the stored path (in place) and returns its
     * file name without extension.
     */
    method GetSceneName() returns (name: string)
      modifies this`scenePath
      ensures scenePath == Normalized(old(scenePath))
      ensures name == SceneNameOf(old(scenePath))
    {
      if scenePath == "" {
        return "";
      }
      if !EndsWithIgnoreCase(scenePath, SceneExtension) {
        scenePath := scenePath + SceneExtension;
      }
      name := FileNameWithoutExtension(scenePath);
    }
  }

  datatype SceneGroup = SceneGroup(
    name: string,               // the asset's object name
    inTransition: Option<Asset>,
    outTransition: Option<Asset>,
    loadingProfile: Option<Asset>,
    loadingDelay: real,
    scenes: seq<SceneData>)
  {
    function UseLoadingScreen(): (used: bool)
      ensures used <==> loadingProfile != None
    {
      loadingProfile.Some?
    }

    function UseInTransition(): (used: bool)
      ensures used <==> inTransition != None
    {
      inTransition.Some?
    }

    function UseOutTransition(): (used: bool)
      ensures used <==> outTransition != None
    {
      outTransition.Some?
    }
  }

  /** A freshly created group asset: no profiles, a delay of 0.5 s and no scenes. */
  function NewSceneGroup(name: string): (g: SceneGroup)
    ensures g.loadingDelay == 0.5 && g.scenes == []
    ensures !g.UseLoadingScreen() && !g.UseInTransition() && !g.UseOutTransition()
  {
    SceneGroup(name, None, None, None, 0.5, [])
  }

  /** The entry objects of a group. */
  function Entries(scenes: seq<SceneData>): set<SceneData> {
    set i | 0 <= i < |scenes| :: scenes[i]
  }

  /** The stored path of every entry, in list order. */
  function PathsOf(scenes: seq<SceneData>): (paths: seq<string>)
    reads Entries(scenes)
    ensures |paths| == |scenes|
    ensures forall i :: 0 <= i < |scenes| ==> paths[i] == scenes[i].scenePath
  {
    seq(|scenes|, i requires 0 <= i < |scenes| reads Entries(scenes) => scenes[i].scenePath)
  }

  /** The `isActiveScene` flag of every entry, in list order. */
  function FlagsOf(scenes: seq<SceneData>): (flags: seq<bool>)
    reads Entries(scenes)
    ensures |flags| == |scenes|
    ensures forall i :: 0 <= i < |scenes| ==> flags[i] == scenes[i].isActiveScene
  {
    seq(|scenes|, i requires 0 <= i < |scenes| reads Entries(scenes) => scenes[i].isActiveScene)
  }

  /** Every path completed. */
  function NormalizedAll(paths: seq<string>): (r: seq<string>)
    ensures |r| == |paths|
    ensures forall i :: 0 <= i < |paths| ==> r[i] == Normalized(paths[i])
  {
    seq(|paths|, i requires 0 <= i < |paths| => Normalized(paths[i]))
  }
}
