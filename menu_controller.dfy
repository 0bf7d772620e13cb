/**
  The game's menu controller, derived from the engine's MenuManager: the
  same three panels, plus a menu-visible flag, the Escape key and the pause
  event to open and close the menu, and a one-shot OnGameStarted the first
  time the menu is closed. Keyboard state is the set of keys held; the
  channel registry is the explicit ManagerInstance. Mouse-cursor and
  reticle visibility are not part of this model.
 */
module GameMenu {
  import opened Wrappers
  import opened MenuPanels
  import opened EventSlots
  import opened Channels
  import opened ChannelRegistry
  import opened Input

  /** Initialize's parameters, named and in declaration order. */
  function ControllerArguments(menuScene: Option<AssetId>, buttonTexture: Option<AssetId>,
                               sliderTrackTexture: Option<AssetId>, sliderHandleTexture: Option<AssetId>,
                               controlsLayoutTexture: Option<AssetId>, font: Option<AssetId>,
                               mainPanelBackground: Option<AssetId>, audioPanelBackground: Option<AssetId>,
                               controlsPanelBackground: Option<AssetId>): seq<Argument>
  {
    [Argument("menuScene", menuScene), Argument("buttonTexture", buttonTexture),
     Argument("sliderTrackTexture", sliderTrackTexture), Argument("sliderHandleTexture", sliderHandleTexture),
     Argument("controlsLayoutTexture", controlsLayoutTexture), Argument("font", font),
     Argument("mainPanelBackground", mainPanelBackground), Argument("audioPanelBackground", audioPanelBackground),
     Argument("controlsPanelBackground", controlsPanelBackground)]
  }

  /** The outcome is Initialize's ArgumentNullException. */
  predicate IsArgumentNull(outcome: Outcome)
  {
    outcome.Fail? && outcome.error.ArgumentNull?
  }

  /** The three panel backgrounds MenuController takes besides the assets. */
  datatype PanelBackgrounds = PanelBackgrounds(main: Option<AssetId>, audio: Option<AssetId>, controls: Option<AssetId>)

  class MenuController {
    var assets: MenuAssets
    var backgrounds: PanelBackgrounds
    var gameStarted: bool
    var configured: bool
    var built: bool
    var menuVisible: bool
    /** The three panels' visibility; `None` while the panels do not exist. */
    var panels: Option<Panels>
    var inputEvents: InputEventChannel?
    var gameEvents: GameEventChannel?
    var newKBState: set<Key>
    var oldKBState: set<Key>
    /** The handler id under which ToggleMenu is subscribed. */
    const toggleMenuId: HandlerId

    /** The channels kept from the registry and the two keyboard states. */
    function Wiring(): (InputEventChannel?, GameEventChannel?, set<Key>, set<Key>)
      reads this
    {
      (inputEvents, gameEvents, newKBState, oldKBState)
    }

    /** Panels exist exactly once built, and only a configured controller builds. */
    ghost predicate Valid()
      reads this
    {
      (built <==> panels.Some?) && (built ==> configured) && (configured ==> Complete(assets))
    }

    constructor (toggleMenuId: HandlerId)
      ensures this.toggleMenuId == toggleMenuId
      ensures !gameStarted && !configured && !built && !menuVisible && panels == None
      ensures inputEvents == null && gameEvents == null && newKBState == {} && oldKBState == {}
      ensures assets == NoAssets && backgrounds == PanelBackgrounds(None, None, None)
      ensures Valid()
    {
      this.toggleMenuId := toggleMenuId;
      assets := NoAssets;
      backgrounds := PanelBackgrounds(None, None, None);
      gameStarted, configured, built, menuVisible := false, false, false, false;
      panels := None;
      inputEvents, gameEvents := null, null;
      newKBState, oldKBState := {}, {};
    }

    /**
      Fails with ArgumentNullException on the first null argument, having
      changed nothing. Otherwise it stores the arguments, marks the
      controller configured and connects it to the channels.
     */
    method Initialize(menuScene: Option<AssetId>, buttonTexture: Option<AssetId>,
                      sliderTrackTexture: Option<AssetId>, sliderHandleTexture: Option<AssetId>,
                      controlsLayoutTexture: Option<AssetId>, font: Option<AssetId>,
                      mainPanelBackground: Option<AssetId>, audioPanelBackground: Option<AssetId>,
                      controlsPanelBackground: Option<AssetId>, registry: ManagerInstance)
      returns (outcome: Outcome)
      requires Valid()
      modifies this, if registry.instance == null then {} else {registry.instance.inputEvents.pauseToggle}
      ensures var check := CheckArguments(ControllerArguments(
                menuScene, buttonTexture, sliderTrackTexture, sliderHandleTexture, controlsLayoutTexture, font,
                mainPanelBackground, audioPanelBackground, controlsPanelBackground));
        && (check.Fail? ==> outcome == check && unchanged(this))
        && (check.Pass? ==> !IsArgumentNull(outcome))
      ensures IsArgumentNull(outcome) && registry.instance != null ==>
        unchanged(registry.instance.inputEvents.pauseToggle)
      ensures !IsArgumentNull(outcome) ==>
        && configured
        && assets == MenuAssets(menuScene, buttonTexture, sliderTrackTexture, sliderHandleTexture,
                                controlsLayoutTexture, font)
        && backgrounds == PanelBackgrounds(mainPanelBackground, audioPanelBackground, controlsPanelBackground)
      ensures !IsArgumentNull(outcome) && registry.instance == null ==>
        && outcome == Fail(InvalidOperation(NotInitialisedMessage))
        && built == old(built) && panels == old(panels) && menuVisible == old(menuVisible)
        && inputEvents == old(inputEvents) && gameEvents == old(gameEvents)
      ensures !IsArgumentNull(outcome) && registry.instance != null ==>
        && outcome == Pass
        && inputEvents == registry.instance.inputEvents && gameEvents == registry.instance.gameEvents
        && registry.instance.inputEvents.pauseToggle.handlers
             == old(registry.instance.inputEvents.pauseToggle.handlers) + [toggleMenuId]
        && built
        && (old(built) ==> panels == old(panels) && menuVisible == old(menuVisible))
        && (!old(built) ==> panels == Some(OnlyVisible(MainPanel)) && menuVisible)
      ensures gameStarted == old(gameStarted)
      ensures newKBState == old(newKBState) && oldKBState == old(oldKBState)
      ensures Valid()
    {
      var args := ControllerArguments(menuScene, buttonTexture, sliderTrackTexture, sliderHandleTexture,
                                      controlsLayoutTexture, font, mainPanelBackground,
                                      audioPanelBackground, controlsPanelBackground);
      outcome := CheckArguments(args);
      if outcome.Fail? {
        return;
      }
      assert args[0].value.Some? && args[1].value.Some? && args[2].value.Some?;
      assert args[3].value.Some? && args[4].value.Some? && args[5].value.Some?;
      assets := MenuAssets(menuScene, buttonTexture, sliderTrackTexture, sliderHandleTexture,
                           controlsLayoutTexture, font);
      backgrounds := PanelBackgrounds(mainPanelBackground, audioPanelBackground, controlsPanelBackground);
      configured := true;
      outcome := ConnectChannels(registry);
    }

    /**
      The rest of Initialize, once configured: fetches the channel registry,
      which throws before the registry is initialised. With the registry it
      keeps the input and game channels, subscribes ToggleMenu to the pause
      slot and tries to build the panels, which on success shows the main
      menu.
     */
    method ConnectChannels(registry: ManagerInstance) returns (outcome: Outcome)
      requires Valid() && configured
      modifies this, if registry.instance == null then {} else {registry.instance.inputEvents.pauseToggle}
      ensures registry.instance == null ==>
        outcome == Fail(InvalidOperation(NotInitialisedMessage)) && unchanged(this)
      ensures registry.instance != null ==>
        && outcome == Pass
        && inputEvents == registry.instance.inputEvents && gameEvents == registry.instance.gameEvents
        && registry.instance.inputEvents.pauseToggle.handlers
             == old(registry.instance.inputEvents.pauseToggle.handlers) + [toggleMenuId]
        && built
        && (old(built) ==> panels == old(panels) && menuVisible == old(menuVisible))
        && (!old(built) ==> panels == Some(OnlyVisible(MainPanel)) && menuVisible)
      ensures configured && assets == old(assets) && backgrounds == old(backgrounds) && gameStarted == old(gameStarted)
      ensures newKBState == old(newKBState) && oldKBState == old(oldKBState)
      ensures Valid()
    {
      var instance := registry.Instance();
      if instance.Err? {
        return Fail(instance.error);
      }
      var channels := instance.value;
      inputEvents := channels.inputEvents;
      gameEvents := channels.gameEvents;
      channels.inputEvents.pauseToggle.Subscribe(toggleMenuId);
      TryBuildMenus();
      outcome := Pass;
    }

    /** Shows `k`, hides the other two panels and marks the menu visible. */
    method SetActivePanel(k: PanelKind)
      requires panels.Some?
      modifies this
      ensures panels == Some(OnlyVisible(k)) && menuVisible
      ensures configured == old(configured) && built == old(built) && assets == old(assets) && backgrounds == old(backgrounds)
      ensures gameStarted == old(gameStarted) && Wiring() == old(Wiring())
    {
      panels := Some(OnlyVisible(k));
      menuVisible := true;
    }

    /** The main panel alone, once the panels exist; before that nothing happens. */
    method ShowMainMenu()
      modifies this
      ensures panels == if old(panels).None? then None else Some(OnlyVisible(MainPanel))
      ensures menuVisible == (old(panels).Some? || old(menuVisible))
      ensures configured == old(configured) && built == old(built) && assets == old(assets) && backgrounds == old(backgrounds)
      ensures gameStarted == old(gameStarted) && Wiring() == old(Wiring())
    {
      if panels.None? {
        return;
      }
      SetActivePanel(MainPanel);
    }

    /** The audio panel alone, once the panels exist; before that nothing happens. */
    method ShowAudioMenu()
      modifies this
      ensures panels == if old(panels).None? then None else Some(OnlyVisible(AudioPanel))
      ensures menuVisible == (old(panels).Some? || old(menuVisible))
      ensures configured == old(configured) && built == old(built) && assets == old(assets) && backgrounds == old(backgrounds)
      ensures gameStarted == old(gameStarted) && Wiring() == old(Wiring())
    {
      if panels.None? {
        return;
      }
      SetActivePanel(AudioPanel);
    }

    /** The controls panel alone, once the panels exist; before that nothing happens. */
    method ShowControlsMenu()
      modifies this
      ensures panels == if old(panels).None? then None else Some(OnlyVisible(ControlsPanel))
      ensures menuVisible == (old(panels).Some? || old(menuVisible))
      ensures configured == old(configured) && built == old(built) && assets == old(assets) && backgrounds == old(backgrounds)
      ensures gameStarted == old(gameStarted) && Wiring() == old(Wiring())
    {
      if panels.None? {
        return;
      }
      SetActivePanel(ControlsPanel);
    }

    /**
      Builds the panels the first time it finds the controller configured
      with every asset, and shows the main menu; at any other time it does
      nothing.
     */
    method TryBuildMenus()
      requires (built <==> panels.Some?) && (built ==> configured)
      modifies this
      ensures old(!built && configured && Complete(assets)) ==>
        built && panels == Some(OnlyVisible(MainPanel)) && menuVisible
      ensures !old(!built && configured && Complete(assets)) ==>
        built == old(built) && panels == old(panels) && menuVisible == old(menuVisible)
      ensures configured == old(configured) && assets == old(assets) && backgrounds == old(backgrounds)
      ensures gameStarted == old(gameStarted) && Wiring() == old(Wiring())
      ensures (built <==> panels.Some?) && (built ==> configured)
    {
      if built {
        return;
      }
      if !configured {
        return;
      }
      if assets.menuScene.None? {
        return;
      }
      if assets.buttonTexture.None? || assets.sliderTrackTexture.None? || assets.sliderHandleTexture.None?
         || assets.controlsLayout.None? || assets.font.None? {
        return;
      }
      panels := Some(BuiltPanels);
      built := true;
      ShowMainMenu();
    }

    /** Opens the menu on its main panel (the menu counts as visible even before the panels exist). */
    method ShowMenuRoot()
      modifies this
      ensures menuVisible
      ensures panels == if old(panels).None? then None else Some(OnlyVisible(MainPanel))
      ensures configured == old(configured) && built == old(built) && assets == old(assets) && backgrounds == old(backgrounds)
      ensures gameStarted == old(gameStarted) && Wiring() == old(Wiring())
    {
      menuVisible := true;
      ShowMainMenu();
    }

    /**
      Closes the menu and hides every existing panel. The first call over
      the controller's life marks the game started and raises OnGameStarted
      (`started` is that Raise's calls); later calls raise nothing. Without
      a game channel (Initialize never got the registry) the Raise throws
      NullReferenceException after the flags are written.
     */
    method HideMenus() returns (outcome: Outcome, started: seq<HandlerId>)
      modifies this
      ensures !menuVisible && gameStarted
      ensures panels == if old(panels).None? then None else Some(AllHidden)
      ensures (outcome, started) == CloseResult(old(gameStarted))
      ensures configured == old(configured) && built == old(built) && assets == old(assets) && backgrounds == old(backgrounds)
      ensures Wiring() == old(Wiring())
    {
      menuVisible := false;
      if panels.Some? {
        panels := Some(AllHidden);
      }
      outcome, started := Pass, [];
      if !gameStarted {
        gameStarted := true;
        if gameEvents == null {
          outcome := Fail(NullReference);
          return;
        }
        started := gameEvents.onGameStarted.Raise();
        assert started == gameEvents.onGameStarted.handlers;
      }
    }

    /**
      What closing the menu raises, given whether the game had started:
      nothing once started; the first time, OnGameStarted's calls, or a
      NullReferenceException when there is no game channel.
     */
    function CloseResult(wasStarted: bool): (Outcome, seq<HandlerId>)
      reads this, if gameEvents == null then {} else {gameEvents.onGameStarted}
    {
      if wasStarted then (Pass, [])
      else if gameEvents == null then (Fail(NullReference), [])
      else (Pass, gameEvents.onGameStarted.handlers)
    }

    /**
      The pause-event handler: closes the menu when it is visible and opens
      it otherwise, so it always flips the menu's visibility.
     */
    method ToggleMenu() returns (outcome: Outcome, started: seq<HandlerId>)
      modifies this
      ensures panels.Some? == old(panels).Some?
      ensures menuVisible == !old(menuVisible)
      ensures old(menuVisible) ==>
        && panels == (if old(panels).None? then None else Some(AllHidden)) && gameStarted
        && (outcome, started) == CloseResult(old(gameStarted))
      ensures !old(menuVisible) ==>
        && panels == (if old(panels).None? then None else Some(OnlyVisible(MainPanel)))
        && outcome == Pass && started == [] && gameStarted == old(gameStarted)
      ensures configured == old(configured) && built == old(built) && assets == old(assets) && backgrounds == old(backgrounds)
      ensures Wiring() == old(Wiring())
    {
      if menuVisible {
        outcome, started := HideMenus();
      } else {
        ShowMenuRoot();
        outcome, started := Pass, [];
      }
    }

    /** ShowHideMenu: Escape going down toggles the menu exactly as ToggleMenu does. */
    method ShowHideMenu() returns (outcome: Outcome, started: seq<HandlerId>)
      modifies this
      ensures panels.Some? == old(panels).Some?
      ensures IsPressed(newKBState, oldKBState, Escape) ==> menuVisible == !old(menuVisible)
      ensures IsPressed(newKBState, oldKBState, Escape) && old(menuVisible) ==>
        && panels == (if old(panels).None? then None else Some(AllHidden)) && gameStarted
        && (outcome, started) == CloseResult(old(gameStarted))
      ensures IsPressed(newKBState, oldKBState, Escape) && !old(menuVisible) ==>
        && panels == (if old(panels).None? then None else Some(OnlyVisible(MainPanel)))
        && outcome == Pass && started == [] && gameStarted == old(gameStarted)
      ensures !IsPressed(newKBState, oldKBState, Escape) ==>
        && menuVisible == old(menuVisible) && panels == old(panels) && gameStarted == old(gameStarted)
        && outcome == Pass && started == []
      ensures configured == old(configured) && built == old(built) && assets == old(assets) && backgrounds == old(backgrounds)
      ensures Wiring() == old(Wiring())
    {
      outcome, started := Pass, [];
      if IsPressed(newKBState, oldKBState, Escape) {
        outcome, started := ToggleMenu();
      }
    }

    /**
      One frame with the keys `current` held: retries the build while
      configured and unbuilt, toggles the menu when Escape went down since
      the previous frame, and keeps `current` for the next frame. When the
      close throws, the frame ends there and the previous keys are kept.
     */
    method Update(current: set<Key>) returns (outcome: Outcome, started: seq<HandlerId>)
      requires Valid()
      modifies this
      ensures var pressed := IsPressed(current, old(oldKBState), Escape);
        var shown := old(!built && configured) || old(menuVisible);
        var prior := if old(!built && configured) then Some(OnlyVisible(MainPanel)) else old(panels);
        && menuVisible == (if pressed then !shown else shown)
        && panels == (if !pressed || prior.None? then prior
                      else if shown then Some(AllHidden) else Some(OnlyVisible(MainPanel)))
        && gameStarted == (old(gameStarted) || (pressed && shown))
        && (outcome, started) == if pressed && shown then CloseResult(old(gameStarted)) else (Pass, [])
      ensures built == (old(built) || old(configured))
      ensures newKBState == current
      ensures oldKBState == if outcome.Pass? then current else old(oldKBState)
      ensures configured == old(configured) && assets == old(assets) && backgrounds == old(backgrounds)
      ensures inputEvents == old(inputEvents) && gameEvents == old(gameEvents)
      ensures Valid()
    {
      newKBState := current;
      if !built && configured {
        TryBuildMenus();
      }
      outcome, started := ShowHideMenu();
      if outcome.Fail? {
        return;
      }
      oldKBState := newKBState;
    }

    /** A click on one of the built buttons: navigation, or a Play / Exit request. */
    method Click(b: MenuButton) returns (request: Option<MenuRequest>)
      modifies this
      ensures request == RequestOf(b)
      ensures panels == match Destination(b)
                        case None => old(panels)
                        case Some(k) => if old(panels).None? then None else Some(OnlyVisible(k))
      ensures menuVisible == (old(menuVisible) || (Destination(b).Some? && old(panels).Some?))
      ensures configured == old(configured) && built == old(built) && assets == old(assets) && backgrounds == old(backgrounds)
      ensures gameStarted == old(gameStarted) && Wiring() == old(Wiring())
    {
      request := None;
      match b
      case PlayButton => request := Some(PlayRequested);
      case ExitButton => request := Some(ExitRequested);
      case AudioButton => ShowAudioMenu();
      case ControlsButton => ShowControlsMenu();
      case AudioBackButton => ShowMainMenu();
      case ControlsBackButton => ShowMainMenu();
    }
  }

  /** A null menu scene is reported before anything else; a null background only when every asset is set. */
  lemma ControllerArgumentOrder(menuScene: Option<AssetId>, buttonTexture: Option<AssetId>,
                                sliderTrackTexture: Option<AssetId>, sliderHandleTexture: Option<AssetId>,
                                controlsLayoutTexture: Option<AssetId>, font: Option<AssetId>,
                                mainPanelBackground: Option<AssetId>)
    ensures var args := ControllerArguments(menuScene, buttonTexture, sliderTrackTexture, sliderHandleTexture,
                                            controlsLayoutTexture, font, mainPanelBackground, None, None);
      && (menuScene.None? ==> CheckArguments(args) == Fail(ArgumentNull("menuScene")))
      && ((menuScene.Some? && buttonTexture.Some? && sliderTrackTexture.Some? && sliderHandleTexture.Some?
           && controlsLayoutTexture.Some? && font.Some? && mainPanelBackground.Some?)
          ==> CheckArguments(args) == Fail(ArgumentNull("audioPanelBackground")))
  {
    var args := ControllerArguments(menuScene, buttonTexture, sliderTrackTexture, sliderHandleTexture,
                                    controlsLayoutTexture, font, mainPanelBackground, None, None);
    if menuScene.Some? && buttonTexture.Some? && sliderTrackTexture.Some? && sliderHandleTexture.Some?
       && controlsLayoutTexture.Some? && font.Some? && mainPanelBackground.Some? {
      assert args[7].value.None?;
      var name := FirstMissing(args).value;
      var i :| 0 <= i < |args| && args[i].value.None? && args[i].name == name
               && forall j :: 0 <= j < i ==> args[j].value.Some?;
      assert i == 7;
    }
  }

  /** With every reference set, Initialize's checks all pass. */
  lemma {:induction false} AllArgumentsGiven(menuScene: AssetId, buttonTexture: AssetId,
                                            sliderTrackTexture: AssetId, sliderHandleTexture: AssetId,
                                            controlsLayoutTexture: AssetId, font: AssetId,
                                            mainPanelBackground: AssetId, audioPanelBackground: AssetId,
                                            controlsPanelBackground: AssetId)
    ensures CheckArguments(ControllerArguments(
              Some(menuScene), Some(buttonTexture), Some(sliderTrackTexture), Some(sliderHandleTexture),
              Some(controlsLayoutTexture), Some(font), Some(mainPanelBackground), Some(audioPanelBackground),
              Some(controlsPanelBackground))) == Pass
  {
    var args := ControllerArguments(
      Some(menuScene), Some(buttonTexture), Some(sliderTrackTexture), Some(sliderHandleTexture),
      Some(controlsLayoutTexture), Some(font), Some(mainPanelBackground), Some(audioPanelBackground),
      Some(controlsPanelBackground));
    assert forall i :: 0 <= i < |args| ==> args[i].value.Some?;
  }
}
