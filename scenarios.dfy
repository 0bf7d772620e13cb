/**
  Whole-system runs assembled the way the game wires its parts: a channel
  registry, the consumers subscribed to its slots, and events raised
  through them. Each method builds everything it uses, so it changes no
  state that exists before the call; its results record what the run
  observed.
 */
module Scenarios {
  import opened Wrappers
  import opened EventSlots
  import opened Channels
  import opened ChannelRegistry
  import opened TimeGate
  import opened Input
  import opened GameMenu

  /** Handler ids the runs below give the consumers. */
  const TogglePauseId: HandlerId := 1
  const ToggleMenuId: HandlerId := 2
  const LoseHandlerId: HandlerId := 3
  const GameStartId: HandlerId := 4

  /** Before Initialise the registry fails fast; afterwards it keeps returning one manager. */
  method RegistryLifecycle() returns (before: Result<EventChannelManager>, first: EventChannelManager,
                                      second: EventChannelManager)
    ensures before == Err(InvalidOperation(NotInitialisedMessage))
    ensures first == second
  {
    var registry := new ManagerInstance();
    before := registry.Instance();
    registry.Initialise();
    first := registry.Instance().value;
    registry.Initialise();
    second := registry.Instance().value;
  }

  /**
    The time controller subscribed once to the pause slot: the first pause
    event stops time and the second restarts it.
   */
  method PauseThenResume() returns (scaleAfterFirst: real, scaleAfterSecond: real, playing: bool)
    ensures scaleAfterFirst == 0.0 && scaleAfterSecond == 1.0 && playing
  {
    var registry := new ManagerInstance();
    registry.Initialise();
    var channels := registry.Instance().value;
    var pause := channels.inputEvents.pauseToggle;
    var time := new Time(1.0);
    var controller := new TimeController(time, pause, TogglePauseId);
    var trace := pause.Raise();
    assert trace == [TogglePauseId];
    controller.HandleRaise(trace);
    scaleAfterFirst := time.timeScale;
    trace := pause.Raise();
    assert trace == [TogglePauseId];
    controller.HandleRaise(trace);
    scaleAfterSecond := time.timeScale;
    playing := controller.isPlaying;
  }

  /**
    TogglePause subscribed a second time, on top of the constructor's own
    subscription: one pause event runs it twice, and time never stops.
   */
  method DoublePauseSubscription() returns (trace: seq<HandlerId>, playing: bool, scale: real)
    ensures trace == [TogglePauseId, TogglePauseId]
    ensures playing && scale == 1.0
  {
    var registry := new ManagerInstance();
    registry.Initialise();
    var channels := registry.Instance().value;
    var pause := channels.inputEvents.pauseToggle;
    var time := new Time(1.0);
    var controller := new TimeController(time, pause, TogglePauseId);
    pause.Subscribe(TogglePauseId);
    trace := pause.Raise();
    assert trace == [TogglePauseId, TogglePauseId];
    assert multiset(trace)[TogglePauseId] == 2;
    assert Flipped(true, 2);
    controller.HandleRaise(trace);
    playing := controller.isPlaying;
    scale := time.timeScale;
  }

  /**
    Raising PlayerWin reaches no PlayerLose handler; clearing the channel,
    once or twice, leaves both slots empty and usable.
   */
  method PlayerSlotsIndependent() returns (winTrace: seq<HandlerId>, loseTrace: seq<HandlerId>,
                                           afterClear: seq<HandlerId>, resubscribed: seq<HandlerId>)
    ensures winTrace == [] && loseTrace == [LoseHandlerId]
    ensures afterClear == [] && resubscribed == [LoseHandlerId]
  {
    var player := new PlayerEventChannel();
    player.playerLose.Subscribe(LoseHandlerId);
    winTrace := player.playerWin.Raise();
    loseTrace := player.playerLose.Raise();
    player.ClearEventChannel();
    player.ClearEventChannel();
    afterClear := player.playerLose.Raise();
    player.playerLose.Subscribe(LoseHandlerId);
    resubscribed := player.playerLose.Raise();
  }

  /**
    EventBaseList shares the caller's list: clearing through it empties the
    caller's list and the listed slots, and leaves an unlisted slot alone.
   */
  method ClearSharedList() returns (callerList: seq<EventBase>, listed: seq<HandlerId>, unlisted: seq<HandlerId>)
    ensures callerList == [] && listed == [] && unlisted == [LoseHandlerId]
  {
    var a := new EventBase();
    var b := new EventBase();
    a.Subscribe(TogglePauseId);
    b.Subscribe(LoseHandlerId);
    var list := new SlotList([a]);
    var clearer := new EventBaseList(list);
    clearer.ClearList();
    callerList := list.items;
    listed := a.handlers;
    unlisted := b.handlers;
  }

  /** A key held over two frames raises its event in the first frame only. */
  method HeldPauseKey() returns (firstFrame: seq<InputSignal>, secondFrame: seq<InputSignal>)
    ensures firstFrame == [PauseToggle] && secondFrame == []
  {
    var input := new InputManager();
    input.Initialise();
    firstFrame := input.Update({Q});
    secondFrame := input.Update({Q});
  }

  /** A fresh, initialised registry with one handler on OnGameStarted. */
  method RegistryWithStartHandler() returns (registry: ManagerInstance, onStarted: EventBase)
    ensures fresh(registry) && fresh(onStarted)
    ensures registry.instance != null && fresh(registry.instance)
    ensures onStarted == registry.instance.gameEvents.onGameStarted
    ensures onStarted != registry.instance.inputEvents.pauseToggle && fresh(registry.instance.inputEvents.pauseToggle)
    ensures onStarted.handlers == [GameStartId]
  {
    registry := new ManagerInstance();
    registry.Initialise();
    var channels := registry.Instance().value;
    onStarted := channels.gameEvents.onGameStarted;
    assert onStarted in channels.gameEvents.Slots();
    assert channels.inputEvents.pauseToggle in channels.inputEvents.Slots();
    onStarted.Subscribe(GameStartId);
  }

  /**
    A controller initialised with every asset against a fresh registry, with
    one handler on OnGameStarted: built and showing its main menu, and the
    game not yet started.
   */
  method WiredMenu() returns (menu: MenuController, onStarted: EventBase)
    ensures fresh(menu) && fresh(onStarted)
    ensures menu.Valid() && menu.built && menu.configured && menu.menuVisible && !menu.gameStarted
    ensures menu.gameEvents != null && menu.gameEvents.onGameStarted == onStarted
    ensures onStarted.handlers == [GameStartId]
  {
    var registry;
    registry, onStarted := RegistryWithStartHandler();
    menu := new MenuController(ToggleMenuId);
    AllArgumentsGiven(0, 1, 2, 3, 4, 5, 6, 7, 8);
    var outcome := menu.Initialize(Some(0), Some(1), Some(2), Some(3), Some(4), Some(5),
                                   Some(6), Some(7), Some(8), registry);
    assert !IsArgumentNull(outcome);
  }

  /**
    A configured menu opens on its main panel and stays open while no key
    is held. Escape closes it, which is the first close and so raises
    OnGameStarted; holding Escape changes nothing; releasing and pressing it
    again reopens the menu and raises nothing.
   */
  method EscapeClosesThenReopens() returns (shownAtStart: bool, afterPress: bool, afterHold: bool,
                                            afterSecondPress: bool, started: seq<HandlerId>,
                                            startedLater: seq<HandlerId>)
    ensures shownAtStart && !afterPress && !afterHold && afterSecondPress
    ensures started == [GameStartId] && startedLater == []
  {
    var menu, onStarted := WiredMenu();
    var outcome;
    outcome, started := menu.Update({});
    shownAtStart := menu.menuVisible;
    outcome, started := menu.Update({Escape});
    assert IsPressed({Escape}, {}, Escape);
    afterPress := menu.menuVisible;
    outcome, startedLater := menu.Update({Escape});
    assert !IsPressed({Escape}, {Escape}, Escape);
    afterHold := menu.menuVisible;
    outcome, startedLater := menu.Update({});
    outcome, startedLater := menu.Update({Escape});
    afterSecondPress := menu.menuVisible;
  }

  /**
    A controller whose Initialize found no registry: it is configured but
    has no game channel. Escape builds and closes the menu, and the close
    throws NullReferenceException before the frame stores its keys, so
    Escape still held on the next frame counts as a new press and reopens
    the menu.
   */
  method ThrowingCloseKeepsKeys() returns (first: Outcome, closed: bool, reopened: bool)
    ensures first == Fail(NullReference) && !closed && reopened
  {
    var registry := new ManagerInstance();
    var menu := new MenuController(ToggleMenuId);
    AllArgumentsGiven(0, 1, 2, 3, 4, 5, 6, 7, 8);
    var outcome := menu.Initialize(Some(0), Some(1), Some(2), Some(3), Some(4), Some(5),
                                   Some(6), Some(7), Some(8), registry);
    assert outcome == Fail(InvalidOperation(NotInitialisedMessage));
    assert menu.gameEvents == null && !menu.gameStarted && menu.oldKBState == {};
    var started;
    first, started := menu.Update({Escape});
    assert IsPressed({Escape}, {}, Escape);
    closed := menu.menuVisible;
    outcome, started := menu.Update({Escape});
    reopened := menu.menuVisible;
  }
}
