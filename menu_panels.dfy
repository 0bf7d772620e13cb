/**
  What MenuManager and MenuController share: the three menu panels,
  abstracted to their visibility flags, the buttons that navigate between
  them, and the null checks on the configuration arguments. Engine objects
  (scenes, textures, fonts) are opaque ids; a null reference is `None`.
 */
module MenuPanels {
  import opened Wrappers

  /** A non-null engine object handed to a menu: a scene, a texture or a font. */
  type AssetId = nat

  datatype PanelKind = MainPanel | AudioPanel | ControlsPanel

  /** The `IsVisible` flags of the main, audio and controls panels. */
  datatype Panels = Panels(main: bool, audio: bool, controls: bool)

  function IsVisible(p: Panels, k: PanelKind): bool
  {
    match k
    case MainPanel => p.main
    case AudioPanel => p.audio
    case ControlsPanel => p.controls
  }

  /** SetActivePanel: the chosen panel shown, the other two hidden. */
  function OnlyVisible(k: PanelKind): (p: Panels)
    ensures forall j :: IsVisible(p, j) <==> j == k
  {
    match k
    case MainPanel => Panels(true, false, false)
    case AudioPanel => Panels(false, true, false)
    case ControlsPanel => Panels(false, false, true)
  }

  const AllHidden := Panels(false, false, false)

  /** The flags BuildPanels gives the new panels: main shown, audio and controls hidden. */
  const BuiltPanels := Panels(true, false, false)

  /** Building leaves the panels exactly as showing the main menu does. */
  lemma BuiltPanelsShowMain()
    ensures BuiltPanels == OnlyVisible(MainPanel)
    ensures forall k :: IsVisible(BuiltPanels, k) <==> k == MainPanel
  {
  }

  /** Exactly one panel is visible after SetActivePanel, whichever panel it shows. */
  lemma ExactlyOneVisible(k: PanelKind)
    ensures |set j | j in {MainPanel, AudioPanel, ControlsPanel} && IsVisible(OnlyVisible(k), j)| == 1
  {
    var s := set j | j in {MainPanel, AudioPanel, ControlsPanel} && IsVisible(OnlyVisible(k), j);
    assert s == {k};
  }

  /** The buttons the menus build, and what each click asks for. */
  datatype MenuButton = PlayButton | AudioButton | ControlsButton | ExitButton | AudioBackButton | ControlsBackButton

  /** The menu's own events a click can raise. */
  datatype MenuRequest = PlayRequested | ExitRequested

  /** The panel a navigation button leads to; Play and Exit lead to none. */
  function Destination(b: MenuButton): Option<PanelKind>
  {
    match b
    case AudioButton => Some(AudioPanel)
    case ControlsButton => Some(ControlsPanel)
    case AudioBackButton => Some(MainPanel)
    case ControlsBackButton => Some(MainPanel)
    case _ => None
  }

  /** The request a click raises: Play and Exit raise one, navigation raises none. */
  function RequestOf(b: MenuButton): Option<MenuRequest>
  {
    match b
    case PlayButton => Some(PlayRequested)
    case ExitButton => Some(ExitRequested)
    case _ => None
  }

  /** Every button either navigates or raises a request, never both; Back always leads to the main panel. */
  lemma ButtonsNavigateOrRequest(b: MenuButton)
    ensures Destination(b).Some? != RequestOf(b).Some?
    ensures b == AudioBackButton || b == ControlsBackButton ==> Destination(b) == Some(MainPanel)
  {
  }

  /** What TryBuildMenus needs: the menu scene, the textures and the font. */
  datatype MenuAssets = MenuAssets(menuScene: Option<AssetId>, buttonTexture: Option<AssetId>,
                                   sliderTrackTexture: Option<AssetId>, sliderHandleTexture: Option<AssetId>,
                                   controlsLayout: Option<AssetId>, font: Option<AssetId>)

  /** The configuration before Initialize: every reference null. */
  const NoAssets := MenuAssets(None, None, None, None, None, None)

  /** TryBuildMenus' check that the scene and every texture and font are set. */
  predicate Complete(a: MenuAssets)
  {
    a.menuScene.Some? && a.buttonTexture.Some? && a.sliderTrackTexture.Some? && a.sliderHandleTexture.Some?
    && a.controlsLayout.Some? && a.font.Some?
  }

  /** One parameter of Initialize: its name and the reference passed for it. */
  datatype Argument = Argument(name: string, value: Option<AssetId>)

  /**
    The name of the first null argument in parameter order, which is the
    one ArgumentNullException reports; None when no argument is null.
   */
  function FirstMissing(args: seq<Argument>): (r: Option<string>)
    ensures r.None? <==> forall i :: 0 <= i < |args| ==> args[i].value.Some?
    ensures r.Some? ==>
      exists i :: 0 <= i < |args| && args[i].value.None? && args[i].name == r.value
                  && forall j :: 0 <= j < i ==> args[j].value.Some?
  {
    if args == [] then None
    else if args[0].value.None? then Some(args[0].name)
    else
      var r := FirstMissing(args[1..]);
      if r.Some? then
        var i :| 0 <= i < |args[1..]| && args[1..][i].value.None? && args[1..][i].name == r.value
                 && forall j :: 0 <= j < i ==> args[1..][j].value.Some?;
        assert args[i + 1] == args[1..][i];
        assert forall j :: 0 <= j < i + 1 ==> args[j].value.Some? by {
          forall j | 0 <= j < i + 1
            ensures args[j].value.Some?
          {
            if j > 0 {
              assert args[j] == args[1..][j - 1];
            }
          }
        }
        r
      else
        assert forall i :: 0 <= i < |args| ==> args[i].value.Some? by {
          forall i | 0 <= i < |args|
            ensures args[i].value.Some?
          {
            if i > 0 {
              assert args[i] == args[1..][i - 1];
            }
          }
        }
        r
  }

  /** The outcome of Initialize's checks: ArgumentNullException for the first null argument. */
  function CheckArguments(args: seq<Argument>): (outcome: Outcome)
    ensures outcome.Pass? <==> forall i :: 0 <= i < |args| ==> args[i].value.Some?
    ensures outcome.Fail? ==> outcome.error.ArgumentNull? && FirstMissing(args) == Some(outcome.error.paramName)
  {
    match FirstMissing(args)
    case None => Pass
    case Some(name) => Fail(ArgumentNull(name))
  }
}
