/**
  The engine's menu manager: configured once with a menu scene, textures
  and a font, it builds the main, audio and controls panels (once) and
  switches which of them is visible. The panels are `None` until built;
  building them into the scene (layout, widgets) is engine work and is
  reduced to the visibility flags it sets.
 */
module EngineMenu {
  import opened Wrappers
  import opened MenuPanels

  /** Initialize's parameters, named and in declaration order. */
  function ManagerArguments(menuScene: Option<AssetId>, buttonTexture: Option<AssetId>,
                            sliderTrackTexture: Option<AssetId>, sliderHandleTexture: Option<AssetId>,
                            controlsLayoutTexture: Option<AssetId>, font: Option<AssetId>): seq<Argument>
  {
    [Argument("menuScene", menuScene), Argument("buttonTexture", buttonTexture),
     Argument("sliderTrackTexture", sliderTrackTexture), Argument("sliderHandleTexture", sliderHandleTexture),
     Argument("controlsLayoutTexture", controlsLayoutTexture), Argument("font", font)]
  }

  /** A null menu scene is reported first, whatever else is null; a null font only when all else is set. */
  lemma ManagerArgumentOrder(menuScene: Option<AssetId>, buttonTexture: Option<AssetId>,
                             sliderTrackTexture: Option<AssetId>, sliderHandleTexture: Option<AssetId>,
                             controlsLayoutTexture: Option<AssetId>, font: Option<AssetId>)
    ensures var args := ManagerArguments(menuScene, buttonTexture, sliderTrackTexture, sliderHandleTexture,
                                         controlsLayoutTexture, font);
      && (menuScene.None? ==> CheckArguments(args) == Fail(ArgumentNull("menuScene")))
      && ((menuScene.Some? && buttonTexture.Some? && sliderTrackTexture.Some? && sliderHandleTexture.Some?
           && controlsLayoutTexture.Some? && font.None?) ==> CheckArguments(args) == Fail(ArgumentNull("font")))
  {
    var args := ManagerArguments(menuScene, buttonTexture, sliderTrackTexture, sliderHandleTexture,
                                 controlsLayoutTexture, font);
    if menuScene.Some? && buttonTexture.Some? && sliderTrackTexture.Some? && sliderHandleTexture.Some?
       && controlsLayoutTexture.Some? && font.None? {
      assert args[5].value.None?;
      var name := FirstMissing(args).value;
      var i :| 0 <= i < |args| && args[i].value.None? && args[i].name == name
               && forall j :: 0 <= j < i ==> args[j].value.Some?;
      assert i == 5;
    }
  }

  class MenuManager {
    var assets: MenuAssets
    var configured: bool
    var built: bool
    /** The three panels' visibility; `None` while the panels do not exist. */
    var panels: Option<Panels>

    /** Panels exist exactly once built, and only a configured manager builds. */
    ghost predicate Valid()
      reads this
    {
      (built <==> panels.Some?) && (built ==> configured) && (configured ==> Complete(assets))
    }

    constructor ()
      ensures !configured && !built && panels == None && assets == NoAssets
      ensures Valid()
    {
      assets := NoAssets;
      configured, built, panels := false, false, None;
    }

    /**
      Checks the arguments in order and fails with ArgumentNullException on
      the first null one, having changed nothing; otherwise stores them,
      marks the manager configured and tries to build the panels.
     */
    method Initialize(menuScene: Option<AssetId>, buttonTexture: Option<AssetId>,
                      sliderTrackTexture: Option<AssetId>, sliderHandleTexture: Option<AssetId>,
                      controlsLayoutTexture: Option<AssetId>, font: Option<AssetId>)
      returns (outcome: Outcome)
      requires Valid()
      modifies this
      ensures outcome == CheckArguments(ManagerArguments(menuScene, buttonTexture, sliderTrackTexture,
                                                         sliderHandleTexture, controlsLayoutTexture, font))
      ensures outcome.Fail? ==> unchanged(this)
      ensures outcome.Pass? ==>
        && assets == MenuAssets(menuScene, buttonTexture, sliderTrackTexture, sliderHandleTexture,
                                controlsLayoutTexture, font)
        && configured && built
        && panels == (if old(built) then old(panels) else Some(OnlyVisible(MainPanel)))
      ensures Valid()
    {
      var args := ManagerArguments(menuScene, buttonTexture, sliderTrackTexture,
                                   sliderHandleTexture, controlsLayoutTexture, font);
      outcome := CheckArguments(args);
      if outcome.Fail? {
        return;
      }
      assert args[0].value.Some? && args[1].value.Some? && args[2].value.Some?;
      assert args[3].value.Some? && args[4].value.Some? && args[5].value.Some?;
      assets := MenuAssets(menuScene, buttonTexture, sliderTrackTexture, sliderHandleTexture,
                           controlsLayoutTexture, font);
      configured := true;
      TryBuildMenus();
    }

    /** Shows `k` and hides the other two panels. */
    method SetActivePanel(k: PanelKind)
      requires panels.Some?
      modifies this
      ensures panels == Some(OnlyVisible(k))
      ensures configured == old(configured) && built == old(built) && assets == old(assets)
    {
      panels := Some(OnlyVisible(k));
    }

    /** The main panel alone, once the panels exist; before that nothing happens. */
    method ShowMainMenu()
      modifies this
      ensures panels == if old(panels).None? then None else Some(OnlyVisible(MainPanel))
      ensures configured == old(configured) && built == old(built) && assets == old(assets)
    {
      if panels.None? {
        return;
      }
      SetActivePanel(MainPanel);
    }

    /** The audio panel alone, once the panels exist; before that nothing happens. */
    method ShowAudioMenu()
      modifies this
      ensures panels == if old(panels).None? then None else Some(OnlyVisible(AudioPanel))
      ensures configured == old(configured) && built == old(built) && assets == old(assets)
    {
      if panels.None? {
        return;
      }
      SetActivePanel(AudioPanel);
    }

    /** The controls panel alone, once the panels exist; before that nothing happens. */
    method ShowControlsMenu()
      modifies this
      ensures panels == if old(panels).None? then None else Some(OnlyVisible(ControlsPanel))
      ensures configured == old(configured) && built == old(built) && assets == old(assets)
    {
      if panels.None? {
        return;
      }
      SetActivePanel(ControlsPanel);
    }

    /**
      Builds the panels the first time it finds the manager configured with
      every asset, showing the main panel; at any other time it does nothing.
     */
    method TryBuildMenus()
      requires (built <==> panels.Some?) && (built ==> configured)
      modifies this
      ensures old(!built && configured && Complete(assets)) ==> built && panels == Some(OnlyVisible(MainPanel))
      ensures !old(!built && configured && Complete(assets)) ==> built == old(built) && panels == old(panels)
      ensures configured == old(configured) && assets == old(assets)
      ensures (built <==> panels.Some?) && (built ==> configured)
    {
      if built {
        return;
      }
      if !configured {
        return;
      }
      if assets.menuScene.None? {
        return;
      }
      if assets.buttonTexture.None? || assets.sliderTrackTexture.None? || assets.sliderHandleTexture.None?
         || assets.controlsLayout.None? || assets.font.None? {
        return;
      }
      panels := Some(BuiltPanels);
      built := true;
      ShowMainMenu();
    }

    /** A click on one of the built buttons: navigation, or a Play / Exit request. */
    method Click(b: MenuButton) returns (request: Option<MenuRequest>)
      modifies this
      ensures request == RequestOf(b)
      ensures panels == match Destination(b)
                        case None => old(panels)
                        case Some(k) => if old(panels).None? then None else Some(OnlyVisible(k))
      ensures configured == old(configured) && built == old(built) && assets == old(assets)
    {
      request := None;
      match b
      case PlayButton => request := Some(PlayRequested);
      case ExitButton => request := Some(ExitRequested);
      case AudioButton => ShowAudioMenu();
      case ControlsButton => ShowControlsMenu();
      case AudioBackButton => ShowMainMenu();
      case ControlsBackButton => ShowMainMenu();
    }

    /** Each frame: retries the build while configured and not yet built. */
    method Update()
      requires Valid()
      modifies this
      ensures old(!built && configured) ==> built && panels == Some(OnlyVisible(MainPanel))
      ensures !old(!built && configured) ==> built == old(built) && panels == old(panels)
      ensures configured == old(configured)
      ensures Valid()
    {
      if !built && configured {
        TryBuildMenus();
      }
    }
  }
}
