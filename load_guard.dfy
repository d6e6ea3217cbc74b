/**
 * The single-flight guard and the group history kept by `SceneLoader`; the
 * rules are the same in both namespaces.
 */
module LoadGuard {
  import opened SceneEngine

  /** What the guard at the start of `LoadSceneGroup` decides. */
  datatype Admission =
    | Rejected     // a load is already running: the call returns at once
    | EmptyGroup   // the group has no scenes: an error is logged
    | Started      // the scenes are loaded

  /** The guard: `if (m_isLoading) return;` then `if (sceneGroup.scenes.Any())`. */
  function Admit(isLoading: bool, sceneCount: nat): (a: Admission)
    ensures a == Rejected <==> isLoading
    ensures a == EmptyGroup <==> !isLoading && sceneCount == 0
    ensures a == Started <==> !isLoading && sceneCount > 0
  {
    if isLoading then Rejected else if sceneCount == 0 then EmptyGroup else Started
  }

  /** The error logged for a group without scenes. */
  function EmptyGroupError(groupName: string): string {
    "Scene group " + groupName + " has no scenes to load."
  }

  /** The error `Awake` logs when the boot scene name is empty. */
  const BootNameMissing: string :=
    "Boot scene name is not set in the SceneLoader. Please set the boot scene name in the SceneLoader inspector."

  /** `CurrentSceneGroup` and `PreviousSceneGroup`. */
  datatype History<G> = History(current: Option<G>, previous: Option<G>)

  /**
   * The history after a successful load of `g`: `g` becomes current, and the
   * old current (when there was one) becomes previous.
   */
  function AfterLoad<G>(h: History<G>, g: G): (r: History<G>)
    ensures r.current == Some(g)
    ensures h.current.Some? ==> r.previous == h.current
    ensures h.current.None? ==> r.previous == h.previous
  {
    History(Some(g), if h.current.Some? then h.current else h.previous)
  }

  /** After one load from the start, nothing is previous; after a second, the first is. */
  lemma TwoLoadsFromStart<G>(g1: G, g2: G)
    ensures AfterLoad(History(None, None), g1) == History(Some(g1), None)
    ensures AfterLoad(AfterLoad(History(None, None), g1), g2) == History(Some(g2), Some(g1))
  {
  }

  /** Once a group has been loaded, every later load leaves a previous group. */
  lemma PreviousSetAfterSecondLoad<G>(h: History<G>, g: G)
    requires h.current.Some?
    ensures AfterLoad(h, g).previous.Some?
  {
  }
}
