/**
 * The inspector of a `Pastime.SceneLoader` scene group: the warning shown
 * when more than one entry is flagged as the scene to make active.
 */
module PastimeGroupEditor {
  import opened PastimeScenes

  const ActiveScenesWarning: string :=
    "There is more than one scene marked as the active scene, this will" + "cause the unexpected behaviour"

  /** The number of flagged entries. */
  function CountActive(scenes: seq<SceneData>): (n: nat)
    ensures n <= |scenes|
    ensures n == 0 <==> forall i :: 0 <= i < |scenes| ==> !scenes[i].isActiveScene
  {
    if |scenes| == 0 then 0
    else CountActive(scenes[..|scenes| - 1]) + (if scenes[|scenes| - 1].isActiveScene then 1 else 0)
  }

  /** `CheckActiveScenes`: counts the flagged entries and reports whether there are more than one. */
  method CheckActiveScenes(sceneDataList: seq<SceneData>) returns (r: bool)
    ensures r <==> CountActive(sceneDataList) > 1
  {
    var activeScenes := 0;
    for i := 0 to |sceneDataList|
      invariant activeScenes == CountActive(sceneDataList[..i])
    {
      assert sceneDataList[..i + 1][..i] == sceneDataList[..i];
      if sceneDataList[i].isActiveScene {
        activeScenes := activeScenes + 1;
      }
    }
    assert sceneDataList[..|sceneDataList|] == sceneDataList;
    r := activeScenes > 1;
  }

  lemma {:induction false} CountActiveAppend(a: seq<SceneData>, b: seq<SceneData>)
    ensures CountActive(a + b) == CountActive(a) + CountActive(b)
  {
    if |b| == 0 {
      assert a + b == a;
    } else {
      assert (a + b)[..|a + b| - 1] == a + b[..|b| - 1];
      CountActiveAppend(a, b[..|b| - 1]);
    }
  }

  /** The warning depends only on which entries the list holds, not on their order. */
  lemma {:induction false} CountActiveIgnoresOrder(a: seq<SceneData>, b: seq<SceneData>)
    requires multiset(a) == multiset(b)
    ensures CountActive(a) == CountActive(b)
    decreases |a|
  {
    if |a| == 0 {
      assert |b| == |multiset(b)| == 0;
    } else {
      var x := a[|a| - 1];
      assert x in multiset(b);
      var k :| 0 <= k < |b| && b[k] == x;
      RemoveMatching(a, b, k);
      CountActiveIgnoresOrder(a[..|a| - 1], b[..k] + b[k + 1..]);
      assert a == a[..|a| - 1] + [x];
      CountActiveAppend(a[..|a| - 1], [x]);
      CountActiveRemove(b, k);
    }
  }

  /** Taking the same entry out of two permutations of each other leaves two permutations. */
  lemma {:induction false} RemoveMatching(a: seq<SceneData>, b: seq<SceneData>, k: nat)
    requires multiset(a) == multiset(b) && |a| > 0 && k < |b| && b[k] == a[|a| - 1]
    ensures multiset(a[..|a| - 1]) == multiset(b[..k] + b[k + 1..])
  {
    var x := b[k];
    var a', b' := a[..|a| - 1], b[..k] + b[k + 1..];
    assert a == a' + [x];
    assert b == b[..k] + [x] + b[k + 1..];
    assert multiset(a') + multiset{x} == multiset(b') + multiset{x};
    forall y ensures multiset(a')[y] == multiset(b')[y] {
      assert (multiset(a') + multiset{x})[y] == (multiset(b') + multiset{x})[y];
    }
  }

  /** Removing one entry lowers the count by its own flag. */
  lemma {:induction false} CountActiveRemove(b: seq<SceneData>, k: nat)
    requires k < |b|
    ensures CountActive(b) == CountActive(b[..k] + b[k + 1..]) + if b[k].isActiveScene then 1 else 0
  {
    var p, x, q := b[..k], b[k], b[k + 1..];
    assert b == (p + [x]) + q;
    CountActiveAppend(p + [x], q);
    CountActiveAppend(p, [x]);
    CountActiveAppend(p, q);
    assert [x][..0] == [];
  }

  /** No entry, or a single flagged one, raises no warning. */
  lemma AtMostOneFlagIsFine(scenes: seq<SceneData>)
    requires forall i, j :: 0 <= i < j < |scenes| ==> !(scenes[i].isActiveScene && scenes[j].isActiveScene)
    ensures CountActive(scenes) <= 1
  {
    if |scenes| > 0 {
      var s := scenes[..|scenes| - 1];
      AtMostOneFlagIsFine(s);
      if scenes[|scenes| - 1].isActiveScene && CountActive(s) == 1 {
        CountedFlagExists(s);
      }
    }
  }

  /** A positive count comes from a flagged entry. */
  lemma {:induction false} CountedFlagExists(scenes: seq<SceneData>)
    requires CountActive(scenes) > 0
    ensures exists i :: 0 <= i < |scenes| && scenes[i].isActiveScene
  {
    if !scenes[|scenes| - 1].isActiveScene {
      CountedFlagExists(scenes[..|scenes| - 1]);
      var i :| 0 <= i < |scenes| - 1 && scenes[..|scenes| - 1][i].isActiveScene;
      assert scenes[i].isActiveScene;
    }
  }

  /** Two flagged entries at different positions always raise the warning. */
  lemma {:induction false} TwoFlagsWarn(scenes: seq<SceneData>, i: nat, j: nat)
    requires i < j < |scenes| && scenes[i].isActiveScene && scenes[j].isActiveScene
    ensures CountActive(scenes) > 1
  {
    assert scenes == scenes[..i] + [scenes[i]] + scenes[i + 1..j] + [scenes[j]] + scenes[j + 1..];
    CountActiveAppend(scenes[..i] + [scenes[i]] + scenes[i + 1..j] + [scenes[j]], scenes[j + 1..]);
    CountActiveAppend(scenes[..i] + [scenes[i]] + scenes[i + 1..j], [scenes[j]]);
    CountActiveAppend(scenes[..i] + [scenes[i]], scenes[i + 1..j]);
    CountActiveAppend(scenes[..i], [scenes[i]]);
  }

  /**
   * The validation container under the scene list, refreshed on every
   * toggle change: it is cleared, and holds the warning exactly when the
   * check fires.
   */
  class SceneValidationContainer {
    var children: seq<string>

    constructor ()
      ensures children == []
    {
      children := [];
    }

    method OnToggleChanged(sceneDataList: seq<SceneData>)
      modifies this`children
      ensures children == if CountActive(sceneDataList) > 1 then [ActiveScenesWarning] else []
    {
      children := [];
      var tooMany := CheckActiveScenes(sceneDataList);
      if tooMany {
        children := children + [ActiveScenesWarning];
      } else {
        children := [];
      }
    }
  }
}
