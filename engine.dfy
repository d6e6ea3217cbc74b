/**
 * The scene engine the loaders drive (Unity's SceneManager), reduced to what
 * the loaders observe: the list of scenes it reports, the asynchronous
 * operation handles it returns, and a log of the requests it received.
 * How the engine actually loads or unloads a scene is not modelled.
 */
module SceneEngine {

  datatype Option<T> = None | Some(value: T)

  /** One entry of the engine's scene list, as `SceneManager.GetSceneAt(i)` reports it. */
  datatype Scene = Scene(name: string, path: string, isLoaded: bool)

  /** An `AsyncOperation` handle: its progress, whether it is done, and its activation flag. */
  datatype Operation = Operation(progress: real, isDone: bool, allowActivation: bool)

  /** What the engine reports for one handle at one poll. */
  datatype Status = Status(progress: real, isDone: bool)

  /** An editor asset (a scene asset, or a transition or loading profile), by identity. */
  datatype Asset = Asset(id: nat)

  /** A request received by the engine. */
  datatype Call =
    | UnloadSceneAsync(name: string)
    | LoadSceneAsync(scene: string)    // additive load, by name or by path
    | SetActiveScene(path: string)     // SetActiveScene(GetSceneByPath(path))

  /** A handle as the engine hands it out: nothing done yet, activation allowed (the engine's default). */
  function Issued(): (op: Operation)
    ensures !op.isDone && op.allowActivation && op.progress == 0.0
  {
    Operation(0.0, false, true)
  }

  class SceneManager {
    /**
     * The scenes in the engine, in `GetSceneAt` order; index 0 is the first
     * scene loaded. The loaders only read the list before they make any
     * request, and how requests change it is not modelled, so it is fixed.
     */
    const scenes: seq<Scene>
    /** Every request made so far, oldest first. */
    var calls: seq<Call>
    /** Scenes for which `UnloadSceneAsync` returns null (the engine refuses to unload them). */
    const unloadRefused: set<string>

    constructor (scenes: seq<Scene>, unloadRefused: set<string>)
      ensures this.scenes == scenes && this.unloadRefused == unloadRefused && calls == []
    {
      this.scenes := scenes;
      this.unloadRefused := unloadRefused;
      calls := [];
    }

    method UnloadSceneAsync(name: string) returns (op: Option<Operation>)
      modifies this`calls
      ensures calls == old(calls) + [Call.UnloadSceneAsync(name)]
      ensures op == if name in unloadRefused then None else Some(Issued())
    {
      calls := calls + [Call.UnloadSceneAsync(name)];
      op := if name in unloadRefused then None else Some(Issued());
    }

    method LoadSceneAsync(scene: string) returns (op: Operation)
      modifies this`calls
      ensures calls == old(calls) + [Call.LoadSceneAsync(scene)]
      ensures op == Issued()
    {
      calls := calls + [Call.LoadSceneAsync(scene)];
      op := Issued();
    }

    method SetActiveScene(path: string)
      modifies this`calls
      ensures calls == old(calls) + [Call.SetActiveScene(path)]
    {
      calls := calls + [Call.SetActiveScene(path)];
    }
  }
}
