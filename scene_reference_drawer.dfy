/**
 * The inspector field of a `Pastime.SceneLoader` scene reference: it shows
 * whether the referenced scene is in the build list (missing, disabled or
 * valid), colours the field and shows a settings button accordingly, and the
 * button's menu offers to add or to enable the scene.
 *
 * The field is refreshed by a timer; each refresh is one call of `Refresh`.
 */
module SceneReferenceDrawer {
  import opened BuildSettings

  datatype SceneBuildStatus = Valid | Missing | Disabled

  /** The style's display value for the settings button. */
  datatype DisplayStyle = Flex | DisplayNone

  /** A background colour, by its red, green and blue components in [0, 1]. */
  datatype Color = Color(r: real, g: real, b: real)

  const MissingColor := Color(0.6, 0.0, 0.0)
  const DisabledColor := Color(0.8, 0.4, 0.0)
  const ValidColor := Color(40.0 / 255.0, 40.0 / 255.0, 40.0 / 255.0)   // Color32(40, 40, 40, 255)

  datatype MenuItem = OpenBuildPlayerWindow | AddToBuildSettings | EnableInBuildSettings

  /** The status the field shows for a scene at `path`. */
  function BuildStatus(scenes: seq<BuildScene>, path: string): (s: SceneBuildStatus)
    ensures s == Missing <==> forall i :: 0 <= i < |scenes| ==> scenes[i].path != path
    ensures s == Disabled <==>
      (exists i :: 0 <= i < |scenes| && scenes[i].path == path) &&
      (forall i :: 0 <= i < |scenes| && scenes[i].path == path ==> !scenes[i].enabled)
    ensures s == Valid <==> exists i :: 0 <= i < |scenes| && scenes[i].path == path && scenes[i].enabled
  {
    if !IsSceneInBuildSettings(scenes, path) then Missing
    else if !IsSceneEnabledInBuildSettings(scenes, path) then Disabled
    else Valid
  }

  /** The settings button's tooltip for each status. */
  function GetStatusText(buildStatus: SceneBuildStatus): (text: string)
    ensures text != "Unknown status"
  {
    match buildStatus
    case Valid => "Scene is in build settings"
    case Missing => "Scene is missing from build settings"
    case Disabled => "Scene is in build settings but disabled"
  }

  /** The tooltip tells the three statuses apart. */
  lemma StatusTextsDistinct(a: SceneBuildStatus, b: SceneBuildStatus)
    requires a != b
    ensures GetStatusText(a) != GetStatusText(b)
  {
    match a
    case Valid => assert GetStatusText(a)[9] == 'i';
    case Missing => assert GetStatusText(a)[9] == 'm';
    case Disabled => assert GetStatusText(a)[9] == 'i' && |GetStatusText(a)| == 39;
  }

  /**
   * The build list after the first entry at `path` has been enabled; the
   * other entries, and every path, stay as they are.
   */
  function EnabledFirst(scenes: seq<BuildScene>, path: string): (r: seq<BuildScene>)
    ensures |r| == |scenes|
    ensures forall i :: 0 <= i < |scenes| ==> r[i].path == scenes[i].path
    ensures forall i :: 0 <= i < |scenes| && r[i] != scenes[i] ==>
      scenes[i].path == path && r[i].enabled && forall j :: 0 <= j < i ==> scenes[j].path != path
    ensures (forall i :: 0 <= i < |scenes| ==> scenes[i].path != path) ==> r == scenes
    ensures (exists i :: 0 <= i < |scenes| && scenes[i].path == path) ==>
      exists i :: 0 <= i < |r| && r[i].path == path && r[i].enabled
  {
    if |scenes| == 0 then []
    else if scenes[0].path == path then [scenes[0].(enabled := true)] + scenes[1..]
    else [scenes[0]] + EnabledFirst(scenes[1..], path)
  }

  /** `EnabledFirst` is the list with its first entry at `path`, at index `i`, enabled. */
  lemma {:induction false} EnabledFirstAt(scenes: seq<BuildScene>, path: string, i: nat)
    requires i < |scenes| && scenes[i].path == path
    requires forall j :: 0 <= j < i ==> scenes[j].path != path
    ensures EnabledFirst(scenes, path) == scenes[i := scenes[i].(enabled := true)]
  {
    if i > 0 {
      EnabledFirstAt(scenes[1..], path, i - 1);
      assert scenes[1..][i - 1 := scenes[i].(enabled := true)] == scenes[i := scenes[i].(enabled := true)][1..];
    }
  }

  /** The menu entry offered for each status leads to a valid status. */
  lemma OfferedActionMakesValid(scenes: seq<BuildScene>, path: string)
    ensures BuildStatus(scenes, path) == Missing ==> BuildStatus(WithScene(scenes, path), path) == Valid
    ensures BuildStatus(scenes, path) == Disabled ==> BuildStatus(EnabledFirst(scenes, path), path) == Valid
  {
  }

  /** Enabling a scene changes the status of no other path. */
  lemma {:induction false} EnablingKeepsOthers(scenes: seq<BuildScene>, path: string, other: string)
    requires other != path
    ensures BuildStatus(EnabledFirst(scenes, path), other) == BuildStatus(scenes, other)
  {
    var r := EnabledFirst(scenes, path);
    forall i | 0 <= i < |scenes| && scenes[i].path == other
      ensures r[i] == scenes[i]
    {
    }
    assert IsSceneInBuildSettings(r, other) == IsSceneInBuildSettings(scenes, other);
    if IsSceneEnabledInBuildSettings(r, other) {
      var i :| 0 <= i < |r| && r[i].path == other && r[i].enabled;
      assert scenes[i] == r[i];
    }
    if IsSceneEnabledInBuildSettings(scenes, other) {
      var i :| 0 <= i < |scenes| && scenes[i].path == other && scenes[i].enabled;
      assert scenes[i] == r[i];
    }
  }

  /** `AddSceneToBuildSettings` of the drawer: appends the scene, enabled, only when no entry has its path. */
  method AddSceneToBuildSettings(settings: EditorBuildSettings, path: string)
    modifies settings`scenes
    ensures settings.scenes == WithScene(old(settings.scenes), path)
  {
    var scenes := settings.scenes;
    if forall i | 0 <= i < |scenes| :: scenes[i].path != path {
      scenes := scenes + [BuildScene(path, true)];
      settings.scenes := scenes;
    }
  }

  /** `EnableSceneInBuildSettings`: enables the first entry at `path` and stops; without one nothing changes. */
  method EnableSceneInBuildSettings(settings: EditorBuildSettings, path: string)
    modifies settings`scenes
    ensures settings.scenes == EnabledFirst(old(settings.scenes), path)
  {
    var scenes := settings.scenes;
    for i := 0 to |scenes|
      invariant scenes == settings.scenes == old(settings.scenes)
      invariant forall j :: 0 <= j < i ==> scenes[j].path != path
    {
      if scenes[i].path == path {
        EnabledFirstAt(scenes, path, i);
        scenes := scenes[i := scenes[i].(enabled := true)];
        settings.scenes := scenes;
        break;
      }
    }
  }

  class SceneReferenceDrawer {
    var sceneBuildStatus: SceneBuildStatus
    var fieldBackground: Color
    var buttonDisplay: DisplayStyle
    var buttonTooltip: string

    constructor ()
      ensures sceneBuildStatus == Valid
    {
      sceneBuildStatus := Valid;
      fieldBackground := ValidColor;
      buttonDisplay := DisplayNone;
      buttonTooltip := "";
    }

    method SetSceneFieldStatus(color: Color, status: SceneBuildStatus, display: DisplayStyle)
      modifies this`fieldBackground, this`sceneBuildStatus, this`buttonDisplay
      ensures fieldBackground == color && sceneBuildStatus == status && buttonDisplay == display
    {
      fieldBackground := color;
      sceneBuildStatus := status;
      buttonDisplay := display;
    }

    /**
     * `HandleSceneBuildStatus`: the status of the scene at `path`, the
     * field's colour for it, and the settings button shown exactly when
     * the scene is not valid.
     */
    method HandleSceneBuildStatus(settings: EditorBuildSettings, path: string)
      modifies this`fieldBackground, this`sceneBuildStatus, this`buttonDisplay
      ensures sceneBuildStatus == BuildStatus(settings.scenes, path)
      ensures buttonDisplay == Flex <==> sceneBuildStatus != Valid
      ensures fieldBackground ==
        match sceneBuildStatus
        case Missing => MissingColor
        case Disabled => DisabledColor
        case Valid => ValidColor
    {
      var isValid := IsSceneInBuildSettings(settings.scenes, path);
      var isEnabled := IsSceneEnabledInBuildSettings(settings.scenes, path);
      if !isValid {
        SetSceneFieldStatus(MissingColor, Missing, Flex);
      } else if !isEnabled {
        SetSceneFieldStatus(DisabledColor, Disabled, Flex);
      } else {
        SetSceneFieldStatus(ValidColor, Valid, DisplayNone);
      }
    }

    /** One tick of the refresh timer: the status is updated, then the tooltip from it. */
    method Refresh(settings: EditorBuildSettings, path: string)
      modifies this`fieldBackground, this`sceneBuildStatus, this`buttonDisplay, this`buttonTooltip
      ensures sceneBuildStatus == BuildStatus(settings.scenes, path)
      ensures buttonDisplay == Flex <==> sceneBuildStatus != Valid
      ensures fieldBackground ==
        match sceneBuildStatus
        case Missing => MissingColor
        case Disabled => DisabledColor
        case Valid => ValidColor
      ensures buttonTooltip == GetStatusText(sceneBuildStatus)
    {
      HandleSceneBuildStatus(settings, path);
      buttonTooltip := GetStatusText(sceneBuildStatus);
    }
  }

  /**
   * The settings button's menu: the build window always; "Add" when the
   * scene is missing, otherwise "Enable" when it is disabled.
   */
  method SettingsMenu(settings: EditorBuildSettings, path: string) returns (items: seq<MenuItem>)
    ensures |items| >= 1 && items[0] == OpenBuildPlayerWindow
    ensures AddToBuildSettings in items <==> BuildStatus(settings.scenes, path) == Missing
    ensures EnableInBuildSettings in items <==> BuildStatus(settings.scenes, path) == Disabled
    ensures items == [OpenBuildPlayerWindow] <==> BuildStatus(settings.scenes, path) == Valid
  {
    items := [OpenBuildPlayerWindow];
    if !IsSceneInBuildSettings(settings.scenes, path) {
      items := items + [AddToBuildSettings];
    } else if !IsSceneEnabledInBuildSettings(settings.scenes, path) {
      items := items + [EnableInBuildSettings];
    }
  }

  /** The action of a chosen menu entry; opening the build window changes no modelled state. */
  method ChooseMenuItem(settings: EditorBuildSettings, path: string, item: MenuItem)
    modifies settings`scenes
    ensures item == OpenBuildPlayerWindow ==> settings.scenes == old(settings.scenes)
    ensures item == AddToBuildSettings ==> settings.scenes == WithScene(old(settings.scenes), path)
    ensures item == EnableInBuildSettings ==> settings.scenes == EnabledFirst(old(settings.scenes), path)
  {
    match item
    case OpenBuildPlayerWindow =>
    case AddToBuildSettings => AddSceneToBuildSettings(settings, path);
    case EnableInBuildSettings => EnableSceneInBuildSettings(settings, path);
  }
}
