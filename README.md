# Event channels and game-state controllers of Medieval Mayhem, in Dafny

This project models the in-process event backbone of the MonoGame game
*Bobr Ltd Unltd Medieval Mayhem*, together with the small state machines
that hang off it:

- **Event slots.** `EventBase` and `EventBase<T>` are multicast
  publish/subscribe points. A handler is an opaque id, and a slot keeps
  the delegate's invocation list as a `seq`. `Raise` returns the calls it
  made, in order, with the payload.
- **Channels.** The input, audio, game and player channels are fixed
  bundles of slots with a `ClearEventChannel` operation. `EventBaseList`
  clears a list of slots that it shares with its creator.
- **Channel registry.** The static singleton `EventChannelManager` becomes
  the explicit object `ManagerInstance`. It fails fast before `Initialise`.
- **Consumers.**
  - `TimeController`: the pause gate over a time scale of 0 or 1.
  - `GameStateManager`: a four-value game state.
  - `InputManager`: the rising-edge keyboard detector.
  - `LocalisationController`: language cycling and lookup with an English
    fallback.
  - `PlayerStats`: health, orbs and the countdown label.
  - `SceneController`: the scene registry.
  - `MenuManager` and `MenuController`: the menu panels.
  - `PauseMenu`: the pause overlay.

Every module is a Dafny module named after the concept it models:

| file | module |
|---|---|
| `wrappers.dfy` | `Wrappers` |
| `event_base.dfy` | `EventSlots` |
| `channels.dfy` | `Channels` |
| `event_channel_manager.dfy` | `ChannelRegistry` |
| `time_controller.dfy` | `TimeGate` |
| `game_state_manager.dfy` | `GameStates` |
| `input_manager.dfy` | `Input` |
| `localisation_controller.dfy` | `Localisation` |
| `player_stats.dfy` | `Player` |
| `scene_controller.dfy` | `Scenes` |
| `menu_panels.dfy` | `MenuPanels` |
| `menu_manager.dfy` | `EngineMenu` |
| `menu_controller.dfy` | `GameMenu` |
| `pause_menu.dfy` | `PauseOverlay` |
| `scenarios.dfy` | `Scenarios` |

The C# classes whose fields change in place are Dafny classes, with
`modifies` frames. Pure lookups and formatting are functions. Loops in the
source (`foreach` in `EventBaseList.ClearList`, the delegate walk in
`Raise`) are `while` loops with invariants.

Conventions:

- An exception the source throws is a `Result` or `Outcome` value:
  `InvalidOperation(message)`, `ArgumentNull(paramName)` or `NullReference`.
- A null engine reference (scene, texture, font) is `None` of an opaque
  `AssetId`.
- A C# `float` is a `real`. The `(int)` cast is `Trunc`, which truncates
  toward zero. The float `%` is `FloatRem`, a truncated remainder. The
  `D2` format is `FormatD2`.
- Keyboard state is the set of keys held down. The keyboard is read by the
  caller and passed into `Update`.
- The frame time `Time.DeltaTimeSecs` is a parameter of
  `HandleTimeCountdown`.
- Fetching `EventChannelManager.Instance` inside a constructor becomes a
  parameter: the slot the constructor subscribes to.

`scenarios.dfy` wires several parts together and proves end-to-end runs:

- the registry lifecycle;
- pause, then resume;
- the doubled pause subscription;
- player slots staying independent;
- the shared-list clear;
- a held key;
- the menu opening and closing on Escape;
- a close that throws, after which the held Escape key counts as pressed again.

Points where the behaviour of the code is easy to misread, and which the
model follows as written:

- **Unsubscribe removes the last registration.** C# `Delegate.Remove`
  removes the last matching registration, not the first.
  `EventSlots.RemoveDropsLastRegistration` states this, and
  `EventSlots.SubscribeThenUnsubscribe` shows that subscribe-then-unsubscribe
  restores the list even when the handler was already registered.
- **Handler failures are not isolated.** `Raise` is a plain multicast
  invoke with no fault isolation. The model assumes that handlers neither
  throw nor change subscriptions during a `Raise`.
- **Consumers use slot names that are not declared.** Consumers refer to
  `OnPauseToggle`, `OnLanguageSwap`, `OnFullscreenToggle` and
  `OnApplicationExit`, but the input channel declares `PauseToggle`,
  `LanguageSwap` and so on. The model uses the declared slots and treats
  the `On*` names as aliases.
- **The doubled pause subscription is from another revision.** The extra
  subscription at `GDGame/Main.cs:200` calls `SubscribeToPauseToggle`, and
  the channel shown does not have that method. `Scenarios.DoublePauseSubscription`
  models what it does: it subscribes `TogglePause` once more to the pause
  slot.

## Model

| member | source | states |
|---|---|---|
| EventSlots.Remove | GDGame/Scripts/Events/Channels/EventBase.cs:28 | delegate removal `hs - a` (also at line 60 for `EventBase<T>`) leaves every other handler with all its registrations; the Remove lemmas below give what happens to `a` |
| EventSlots.LastIndexOf | GDGame/Scripts/Events/Channels/EventBase.cs:28 | the index delegate removal picks: -1 exactly when `a` is not registered, otherwise a registration of `a` with none after it |
| EventSlots.RemoveAbsent | GDGame/Scripts/Events/Channels/EventBase.cs:28 | unsubscribing a handler that is not registered leaves the invocation list unchanged |
| EventSlots.RemoveDropsLastRegistration | GDGame/Scripts/Events/Channels/EventBase.cs:28 | unsubscribing removes exactly the last registration of the handler, and every other registration keeps its relative order |
| EventSlots.RemoveCounts | GDGame/Scripts/Events/Channels/EventBase.cs:28 | unsubscribing takes away one registration of the handler, or none if it has none, and never a registration of another handler |
| EventSlots.SubscribeThenUnsubscribe | GDGame/Scripts/Events/Channels/EventBase.cs:22-28 | subscribe followed by unsubscribe of the same handler restores the original list, even when the handler was already registered |
| EventSlots.EventBase.constructor | GDGame/Scripts/Events/Channels/EventBase.cs:11 | a new slot has no subscriber |
| EventSlots.EventBase.Raise | GDGame/Scripts/Events/Channels/EventBase.cs:16 | each registered handler is invoked once, in subscription order, so a handler subscribed twice runs twice; with no subscriber there are no calls and no failure |
| EventSlots.EventBase.Subscribe | GDGame/Scripts/Events/Channels/EventBase.cs:22 | the handler is appended at the end of the invocation list |
| EventSlots.EventBase.Unsubscribe | GDGame/Scripts/Events/Channels/EventBase.cs:28 | the new list is the delegate removal `Remove` of the old list; its properties are the lemmas above |
| EventSlots.EventBase.UnsubscribeAll | GDGame/Scripts/Events/Channels/EventBase.cs:33 | the slot is left with no subscriber and stays usable |
| EventSlots.PayloadEvent.constructor | GDGame/Scripts/Events/Channels/EventBase.cs:43 | a new payload slot has no subscriber |
| EventSlots.PayloadEvent.Raise | GDGame/Scripts/Events/Channels/EventBase.cs:48 | every registered handler is invoked once, in order, and each receives the same payload `v` |
| EventSlots.PayloadEvent.Subscribe | GDGame/Scripts/Events/Channels/EventBase.cs:54 | the handler is appended to the invocation list |
| EventSlots.PayloadEvent.Unsubscribe | GDGame/Scripts/Events/Channels/EventBase.cs:60 | the last registration of the handler is removed, or nothing if it has none |
| EventSlots.PayloadEvent.UnsubscribeAll | GDGame/Scripts/Events/Channels/EventBase.cs:65 | the payload slot is left with no subscriber |
| Channels.InputEventChannel.constructor | GDGame/Scripts/Events/Channels/InputEventChannel.cs:9-13 | five new, pairwise distinct slots, all empty; MovementInput is the only one with a payload, an int |
| Channels.InputEventChannel.ClearEventChannel | GDGame/Scripts/Events/Channels/InputEventChannel.cs:18-25 | all five slots are empty afterwards; the slots are `const`, so their identities do not change; calling it again changes nothing |
| Channels.AudioEventChannel.constructor | GDGame/Scripts/Events/Channels/AudioEventChannel.cs:9-12 | two new string-payload slots and two new real-payload slots, pairwise distinct and empty |
| Channels.AudioEventChannel.ClearEventChannel | GDGame/Scripts/Events/Channels/AudioEventChannel.cs:17-23 | all four audio slots are empty afterwards, and their identities are kept |
| Channels.GameEventChannel.constructor | GDGame/Scripts/Events/Channels/GameEventChannel.cs:15-17 | three new, distinct, empty slots: OnGameStarted, OnGamePaused and OnGameUnpaused |
| Channels.GameEventChannel.ClearEventChannel | GDGame/Scripts/Events/Channels/GameEventChannel.cs:22-27 | all three game slots are empty afterwards |
| Channels.PlayerEventChannel.constructor | GDGame/Scripts/Events/Channels/PlayerEventChannel.cs:5-6 | two new, distinct, empty slots: PlayerLose and PlayerWin |
| Channels.PlayerEventChannel.ClearEventChannel | GDGame/Scripts/Events/Channels/PlayerEventChannel.cs:11-15 | both player slots are empty afterwards |
| Channels.SlotList.constructor | GDGame/Scripts/Events/Channels/EventBaseList.cs:10 | the list object the caller owns holds the given slots |
| Channels.EventBaseList.constructor | GDGame/Scripts/Events/Channels/EventBaseList.cs:12-15 | it keeps a reference to the caller's list and does not copy it |
| Channels.EventBaseList.ClearList | GDGame/Scripts/Events/Channels/EventBaseList.cs:17-23 | every slot that was in the list ends with no subscriber; the shared list itself is then empty; nothing else is modified |
| ChannelRegistry.EventChannelManager.constructor | GDGame/Scripts/Events/Channels/EventChannelManager.cs:21-27 | four new channels whose slots are all fresh, distinct between channels, and empty |
| ChannelRegistry.EventChannelManager.ClearEventChannels | GDGame/Scripts/Events/Channels/EventChannelManager.cs:54-60 | every slot of all four channels is empty afterwards; the channels are `const`, so they keep their identities and stay usable |
| ChannelRegistry.ManagerInstance.constructor | GDGame/Scripts/Events/Channels/EventChannelManager.cs:13 | before `Initialise` there is no instance |
| ChannelRegistry.ManagerInstance.Instance | GDGame/Scripts/Events/Channels/EventChannelManager.cs:30-39 | it fails with InvalidOperationException("Ensure you call Initialise() first") exactly when there is no instance; otherwise it returns the instance |
| ChannelRegistry.ManagerInstance.Initialise | GDGame/Scripts/Events/Channels/EventChannelManager.cs:47-52 | the first call creates a well-formed manager whose channels are all empty; later calls keep the same manager |
| Scenarios.RegistryLifecycle | GDGame/Scripts/Events/Channels/EventChannelManager.cs:30-52 | on a fresh registry, `Instance` fails before `Initialise`; after it, two calls either side of a second `Initialise` return the same manager |
| TimeGate.Time.constructor | GDGame/Scripts/Systems/TimeController.cs:19 | the global time scale becomes an object holding the given scale |
| TimeGate.FlippedParity | GDGame/Scripts/Systems/TimeController.cs:25-33 | k toggles leave the playing flag unchanged when k is even and flip it once when k is odd |
| TimeGate.TimeController.constructor | GDGame/Scripts/Systems/TimeController.cs:16-21 | the controller is playing at scale 1, keeps the invariant that the scale is 1 while playing and 0 while paused, and appends TogglePause to the pause slot |
| TimeGate.TimeController.TogglePause | GDGame/Scripts/Systems/TimeController.cs:25-33 | the scale becomes 0 when playing and 1 when paused, the flag flips, and the scale invariant holds again |
| TimeGate.TimeController.HandleRaise | GDGame/Scripts/Systems/TimeController.cs:20 | in a pause Raise that calls TogglePause k times, the flag flips k times, so by FlippedParity an even k is a net no-op |
| Scenarios.PauseThenResume | GDGame/Scripts/Systems/TimeController.cs:16-33 | with one subscription, a first pause event sets the scale to 0 and a second sets it back to 1, still playing |
| Scenarios.DoublePauseSubscription | GDGame/Main.cs:199-200 | with TogglePause subscribed a second time, one pause event calls it twice, and the game stays playing at scale 1 |
| GameStates.CheckNewGameState | GDGame/Scripts/Systems/GameStateManager.cs:47-66 | every state has a branch, and each branch logs a "Game ..." line |
| GameStates.BranchPerState | GDGame/Scripts/Systems/GameStateManager.cs:48-66 | the dispatch has a branch of its own for each of the four states |
| GameStates.GameStateManager.constructor | GDGame/Scripts/Systems/GameStateManager.cs:27-29 | the initial state is GameInactive |
| GameStates.GameStateManager.HandleGameStateChange | GDGame/Scripts/Systems/GameStateManager.cs:42-46 | the state becomes exactly the state given, from any state, so handling the same state twice is idempotent; the dispatched branch is that of the new state |
| Input.CheckForInputs | GDGame/Scripts/Systems/InputManager.cs:169-177 | the six checks raise at most one event each, and nothing in a frame where no key went down |
| Input.CheckForInputsFollowsBindings | GDGame/Scripts/Systems/InputManager.cs:169-177 | the six checks raise exactly what the key-binding table F11, E, L, O, P, Q selects, in table order |
| Input.SelectMembers | GDGame/Scripts/Systems/InputManager.cs:105-163 | a signal is selected exactly when a binding for it had its key go down |
| Input.SelectKeepsOrder | GDGame/Scripts/Systems/InputManager.cs:169-177 | a binding table in increasing rank selects signals in increasing rank |
| Input.RaisedIffRisingEdge | GDGame/Scripts/Systems/InputManager.cs:103-164 | a bound event is raised in a frame exactly when its key is down now and was not down in the previous frame |
| Input.RaisedInFixedOrder | GDGame/Scripts/Systems/InputManager.cs:169-177 | within a frame, events come at most once each, in the order fullscreen, exit, language swap, orb test, damage test, pause |
| Input.RaisedSignalsAreBound | GDGame/Scripts/Systems/InputManager.cs:163 | no movement event is ever raised, and the damage-test event always carries 5 |
| Input.HeldKeysRaiseNothing | GDGame/Scripts/Systems/InputManager.cs:181-186 | with the same keys held as in the previous frame, nothing is raised |
| Input.InputManager.constructor | GDGame/Scripts/Systems/InputManager.cs:23-42 | both keyboard states start empty, and the movement keys start as `Keys.None` |
| Input.InputManager.Initialise | GDGame/Scripts/Systems/InputManager.cs:85-91 | it only records W, D, S and A as the forward, right, back and left keys |
| Input.InputManager.Update | GDGame/Scripts/Systems/InputManager.cs:181-186 | the events raised are the rising edges of the current keys against the previous frame's; the current keys then become the previous frame's |
| Scenarios.HeldPauseKey | GDGame/Scripts/Systems/InputManager.cs:103-186 | Q held over two frames raises the pause event in the first frame only |
| Localisation.NextLanguage | GDGame/Scripts/Systems/LocalisationController.cs:107-115 | the swap always moves to a different language (English to Ukranian to Czech to English) |
| Localisation.SwapCycle | GDGame/Scripts/Systems/LocalisationController.cs:107-118 | three swaps return to the starting language, visiting all three languages |
| Localisation.LocalisationController.constructor | GDGame/Scripts/Systems/LocalisationController.cs:27-34 | it starts in English with the given dictionaries and subscribes HandleLanguageSwap to the language-swap slot |
| Localisation.LocalisationController.Get | GDGame/Scripts/Systems/LocalisationController.cs:85-102 | the current language's entry when there is one; otherwise the English entry; otherwise exactly "ERROR: key NOT FOUND"; it reads state and changes nothing |
| Localisation.LocalisationController.HandleLanguageSwap | GDGame/Scripts/Systems/LocalisationController.cs:107-118 | the language moves one step along English, Ukranian, Czech, English |
| Localisation.LocalisationController.SetLanguage | GDGame/Scripts/Systems/LocalisationController.cs:124 | the current language becomes exactly the one given |
| Localisation.GetInEnglish | GDGame/Scripts/Systems/LocalisationController.cs:87-101 | while English is selected, Get is the plain English lookup with the not-found message |
| Localisation.LocalisationInstance.constructor | GDGame/Scripts/Systems/LocalisationController.cs:19 | before `Initialise` there is no controller |
| Localisation.LocalisationInstance.Instance | GDGame/Scripts/Systems/LocalisationController.cs:38-47 | it throws InvalidOperationException exactly when there is no controller; otherwise it returns the controller |
| Localisation.LocalisationInstance.Initialise | GDGame/Scripts/Systems/LocalisationController.cs:51-56 | the first call creates an English controller and subscribes it once; later calls keep it and subscribe nothing |
| Player.ParseNatToString | GDGame/Scripts/Player/PlayerStats.cs:34 | the decimal digits written for a number read back as that number |
| Player.ParseNatLeadingZero | GDGame/Scripts/Player/PlayerStats.cs:34 | a leading zero pad does not change the value read back |
| Player.FormatD2RoundTrip | GDGame/Scripts/Player/PlayerStats.cs:34 | `D2` of a non-negative number has at least two digits and reads back as the number |
| Player.FormatD2TwoDigits | GDGame/Scripts/Player/PlayerStats.cs:34 | below 100, `D2` writes exactly the tens digit and then the units digit |
| Player.MinutesAndSeconds | GDGame/Scripts/Player/PlayerStats.cs:32-33 | for a non-negative time, `(int)(t / 60)` and `(int)(t % 60)` are the whole minutes and the seconds past them of the whole seconds |
| Player.PlayerStats.constructor | GDGame/Scripts/Player/PlayerStats.cs:14-41 | before Initialise every stat has its C# default value |
| Player.PlayerStats.Initialise | GDGame/Scripts/Player/PlayerStats.cs:49-55 | health 100, no orbs, 600 seconds remaining, and the timer not started |
| Player.PlayerStats.TakeDamage | GDGame/Scripts/Player/PlayerStats.cs:61-68 | health drops by exactly the amount with no clamping; the defeat line is logged exactly when health is 0 or less; nothing else changes |
| Player.PlayerStats.HandleOrbCollection | GDGame/Scripts/Player/PlayerStats.cs:73-76 | the orb count goes up by exactly one, and nothing else changes |
| Player.PlayerStats.StartTimer | GDGame/Scripts/Player/PlayerStats.cs:78-82 | 600 seconds remaining and the timer started |
| Player.PlayerStats.HandleTimeCountdown | GDGame/Scripts/Player/PlayerStats.cs:84-92 | no change unless the timer runs and time remains; otherwise the time drops by the frame time, clamped at 0, so a non-negative time never turns negative; the new time is one `CountdownStep`, the step the countdown lemmas iterate |
| Player.PlayerStats.AddTime | GDGame/Scripts/Player/PlayerStats.cs:94-97 | the remaining time grows by exactly the given seconds, which may be negative |
| Player.PlayerStats.StopTimer | GDGame/Scripts/Player/PlayerStats.cs:99-102 | the timer stops, and the remaining time is kept |
| Player.CountdownRunsOut | GDGame/Scripts/Player/PlayerStats.cs:37-92 | a running timer counted down by frames whose times add up to at least what remains ends at 0; a timer already at or below 0 stays there |
| Player.TimeUpAfterCountdown | GDGame/Scripts/Player/PlayerStats.cs:37-92 | a player whose remaining time is what such a countdown leaves has `IsTimeUp` true |
| Player.CountdownStaysOut | GDGame/Scripts/Player/PlayerStats.cs:84-92 | once no time remains, or while the timer is stopped, any number of frames leaves the time unchanged |
| Player.CountdownBounded | GDGame/Scripts/Player/PlayerStats.cs:84-92 | frames of non-negative length never add time, and never take a non-negative time below 0 |
| Player.PlayerStats.TimeLeft | GDGame/Scripts/Player/PlayerStats.cs:24-35 | the label always starts with "Time Remaining: " and has at least five characters after it; for a negative time, reachable through `AddTime`, those include minus signs, and the MM:SS shape for non-negative times is `TimeLeftForm` |
| Player.TimeLeftForm | GDGame/Scripts/Player/PlayerStats.cs:24-35 | for every non-negative time, including 100 minutes or more, the label is the prefix, a minutes field of two or more digits, a colon and two digits of seconds |
| Player.PlayerStats.IsTimeUp | GDGame/Scripts/Player/PlayerStats.cs:37 | once the time is up, a countdown frame of any length leaves the remaining time unchanged |
| Player.TimeLeftShowsMinutesAndSeconds | GDGame/Scripts/Player/PlayerStats.cs:24-35 | below 100 minutes, the label is "Time Remaining: MM:SS" built from the whole minutes and seconds, two digits each |
| Player.TimeLeftWhenNotStarted | GDGame/Scripts/Player/PlayerStats.cs:28-34 | a timer that is not running reads "Time Remaining: 10:00" both at 0 seconds (the special case) and at 600 seconds (by the formula) |
| Scenes.Scene.constructor | GDGame/Scripts/Systems/SceneController.cs:55 | a scene carries the name it was created with |
| Scenes.SceneController.constructor | GDGame/Scripts/Systems/SceneController.cs:24-27 | an empty scene dictionary and no current scene |
| Scenes.SceneController.CreateScene | GDGame/Scripts/Systems/SceneController.cs:50-58 | an existing name returns the stored scene and adds nothing; a new name adds exactly one fresh entry under that name and returns it |
| Scenes.SceneController.SetCurrentScene | GDGame/Scripts/Systems/SceneController.cs:65-71 | it succeeds exactly when the name is stored, and the current scene becomes that entry; for an unknown name it throws InvalidOperationException("Scene 'name' doest not exist.") and changes nothing |
| Scenes.SceneController.Initialise | GDGame/Scripts/Systems/SceneController.cs:39-43 | the main scene is stored and current; a second call adds nothing, so there is only ever one main-scene entry |
| MenuPanels.OnlyVisible | GDEngine/Core/Managers/MenuManager.cs:315-323 | after SetActivePanel, exactly the chosen panel is visible |
| MenuPanels.BuiltPanelsShowMain | GDEngine/Core/Managers/MenuManager.cs:220-292 | right after building, only the main panel is visible, the same state ShowMainMenu produces |
| MenuPanels.ExactlyOneVisible | GDEngine/Core/Managers/MenuManager.cs:315-323 | whichever panel is chosen, exactly one of the three is visible |
| MenuPanels.ButtonsNavigateOrRequest | GDEngine/Core/Managers/MenuManager.cs:325-353 | every button either navigates to a panel or raises Play/Exit, never both; the back buttons lead to the main panel |
| MenuPanels.FirstMissing | GDEngine/Core/Managers/MenuManager.cs:116-127 | there is no result exactly when no argument is null; otherwise the result is the name of a null argument with every earlier argument non-null |
| MenuPanels.CheckArguments | GDEngine/Core/Managers/MenuManager.cs:116-127 | the checks pass exactly when every argument is non-null; otherwise they fail with ArgumentNullException naming the first null argument |
| EngineMenu.ManagerArgumentOrder | GDEngine/Core/Managers/MenuManager.cs:116-127 | a null menu scene is reported before any other null; a null font is reported when every earlier argument is set |
| EngineMenu.MenuManager.constructor | GDEngine/Core/Managers/MenuManager.cs:94-97 | not configured, not built, no panels, every asset null |
| EngineMenu.MenuManager.Initialize | GDEngine/Core/Managers/MenuManager.cs:108-139 | its outcome is the ordered null check; on a failure nothing changes; otherwise it stores the assets, is configured and built, and shows the main panel if it was not built before |
| EngineMenu.MenuManager.SetActivePanel | GDEngine/Core/Managers/MenuManager.cs:315-323 | the chosen panel is shown and the other two are hidden |
| EngineMenu.MenuManager.ShowMainMenu | GDEngine/Core/Managers/MenuManager.cs:145-153 | a no-op before the panels exist; otherwise only the main panel is visible |
| EngineMenu.MenuManager.ShowAudioMenu | GDEngine/Core/Managers/MenuManager.cs:158-166 | a no-op before the panels exist; otherwise only the audio panel is visible |
| EngineMenu.MenuManager.ShowControlsMenu | GDEngine/Core/Managers/MenuManager.cs:171-179 | a no-op before the panels exist; otherwise only the controls panel is visible |
| EngineMenu.MenuManager.TryBuildMenus | GDEngine/Core/Managers/MenuManager.cs:181-203 | it builds only when not yet built, configured and every asset is set, and then shows the main panel; in every other case nothing changes, so it builds at most once |
| EngineMenu.MenuManager.Click | GDEngine/Core/Managers/MenuManager.cs:325-353 | a click raises the button's own request (Play or Exit), or it shows the panel the button leads to |
| EngineMenu.MenuManager.Update | GDEngine/Core/Managers/MenuManager.cs:367-377 | it retries the build only when configured and not built, and that retry always builds and shows the main panel |
| GameMenu.ControllerArgumentOrder | GDGame/Scripts/UI/MenuController.cs:138-155 | a null menu scene is reported first; with every asset and the main background set, a null audio background is the one reported |
| GameMenu.AllArgumentsGiven | GDGame/Scripts/UI/MenuController.cs:138-155 | with all nine references set, the null checks pass |
| GameMenu.MenuController.constructor | GDGame/Scripts/UI/MenuController.cs:112-116 | the game is not started; nothing is configured or built; the menu is hidden and has no channels |
| GameMenu.MenuController.Initialize | GDGame/Scripts/UI/MenuController.cs:127-176 | the first null argument throws ArgumentNullException before anything changes; otherwise the arguments are stored and the controller is configured; without a registry it then fails with InvalidOperationException, and with one it keeps the channels, subscribes ToggleMenu to the pause slot and builds, showing the main menu |
| GameMenu.MenuController.ConnectChannels | GDGame/Scripts/UI/MenuController.cs:171-175 | without a registry it throws and changes nothing; with one it keeps the input and game channels, appends ToggleMenu to the pause slot, and builds |
| GameMenu.MenuController.SetActivePanel | GDGame/Scripts/UI/MenuController.cs:447-454 | the chosen panel alone is visible, and the menu counts as visible |
| GameMenu.MenuController.ShowMainMenu | GDGame/Scripts/UI/MenuController.cs:187-196 | a no-op until all panels exist; after that, only the main panel is visible and the menu is visible |
| GameMenu.MenuController.ShowAudioMenu | GDGame/Scripts/UI/MenuController.cs:202-213 | a no-op until all panels exist; after that, only the audio panel is visible and the menu is visible |
| GameMenu.MenuController.ShowControlsMenu | GDGame/Scripts/UI/MenuController.cs:218-229 | a no-op until all panels exist; after that, only the controls panel is visible and the menu is visible |
| GameMenu.MenuController.TryBuildMenus | GDGame/Scripts/UI/MenuController.cs:231-253 | it builds at most once, only when configured with every asset, and then shows the main menu; in every other case it changes nothing |
| GameMenu.MenuController.ShowMenuRoot | GDGame/Scripts/UI/MenuController.cs:413-419 | the menu is visible, on its main panel once the panels exist |
| GameMenu.MenuController.HideMenus | GDGame/Scripts/UI/MenuController.cs:425-445 | all panels are hidden and the menu is not visible; only the first call over the controller's life raises OnGameStarted, or it throws NullReferenceException when there is no game channel |
| GameMenu.MenuController.ToggleMenu | GDGame/Scripts/UI/MenuController.cs:498-505 | it flips menu visibility; it closes as HideMenus does, and it opens on the main panel |
| GameMenu.MenuController.ShowHideMenu | GDGame/Scripts/UI/MenuController.cs:527-542 | an Escape rising edge flips the menu: closing hides every panel, marks the game started and reports what closing raised; opening shows the main panel and raises nothing; any other key state changes nothing |
| GameMenu.MenuController.Update | GDGame/Scripts/UI/MenuController.cs:507-525 | it builds if configured and not built, so a just-built menu counts as shown on its main panel; Escape going down then flips visibility, hides every panel and marks the game started on a close, or shows the main panel on an open, and reports what closing raised; the current keys become the previous frame's only when the frame did not throw; the assets, backgrounds and channels stay |
| GameMenu.MenuController.Click | GDGame/Scripts/UI/MenuController.cs:455-483 | a click raises the button's own request, or it shows the panel the button leads to, which makes the menu visible once the panels exist; otherwise visibility, the started flag and the channels stay |
| Scenarios.ThrowingCloseKeepsKeys | GDGame/Scripts/UI/MenuController.cs:507-542 | with no game channel the first close throws NullReferenceException before the keys are stored, so Escape still held on the next frame reopens the menu |
| Scenarios.EscapeClosesThenReopens | GDGame/Scripts/UI/MenuController.cs:425-542 | a built menu starts open; Escape closes it and raises OnGameStarted once; holding Escape changes nothing; pressing it again reopens the menu and raises nothing |
| PauseOverlay.NoButtonExits | GDGame/Scripts/UI/PauseMenu.cs:49-82 | Resume and Quit are both wired to HandlePauseToggle, and HandleExit is wired to no button |
| PauseOverlay.PauseMenu.constructor | GDGame/Scripts/UI/PauseMenu.cs:65-69 | the overlay starts hidden, with its panel hidden and its text disabled, and HandlePauseToggle is appended to the pause slot |
| PauseOverlay.PauseMenu.HandlePauseToggle | GDGame/Scripts/UI/PauseMenu.cs:72-77 | visibility flips, so two toggles restore it, and the panel and text follow it |
| PauseOverlay.PauseMenu.Click | GDGame/Scripts/UI/PauseMenu.cs:49-51 | clicking either button toggles the overlay |
| Scenarios.PlayerSlotsIndependent | GDGame/Scripts/Events/Channels/PlayerEventChannel.cs:5-15 | raising PlayerWin calls no PlayerLose handler; clearing twice leaves both slots empty, and they remain usable |
| Scenarios.ClearSharedList | GDGame/Scripts/Events/Channels/EventBaseList.cs:12-23 | clearing through EventBaseList empties the caller's own list and the listed slots, and leaves an unlisted slot alone |

## Left out

- `LocalisationController.LoadCSV`: it reads files. The three dictionaries are passed to the constructor as maps.
- `GameStateChange`, `OnOrbCollected` and `OnPlayerDamaged`: the consumers use these player slots, but the player channel does not declare them. The model does not add them, and it does not model the subscriptions of `GameStateManager`, `PlayerStats` and the player controller. `InputManager.Update` returns the signals it raises instead of raising them on slots.
- `Localisation.LocalisationController.HandleLanguageSwap`: the `Debug.WriteLine` of the new language (`GDGame/Scripts/Systems/LocalisationController.cs:117`) is not modelled.
- `Channels.EventBaseList.ClearList`: the list holds slot objects, never null, so the NullReferenceException C# throws in the `foreach` for a null entry (`GDGame/Scripts/Events/Channels/EventBaseList.cs:19-20`) is not modelled.
- `GameStates.GameStateManager.HandleGameStateChange`: `Debug.WriteLine` is represented only by the line each branch writes.
- `Input.InputManager`: the engine input system and its device registration (sensitivity, debounce, repeat) are engine configuration. Registering the input object with the current scene is not modelled.
- `Player.PlayerStats.TakeDamage`, `Player.PlayerStats.HandleOrbCollection`: 32-bit wrap-around of `int` is not modelled, because health and orb counts stay far from the limits in play.
- `Player.PlayerStats.HandleTimeCountdown`, `Player.PlayerStats.AddTime`, `Player.PlayerStats.TimeLeft`: these use exact reals rather than 32-bit floats, so float rounding is not modelled.
- `Player.TimeLeftShowsMinutesAndSeconds`: holds below 100 minutes, where each field has two digits. Longer times, possible through `AddTime`, print more digits, and `Player.TimeLeftForm` gives their shape; negative times are not covered.
- `Player.PlayerStats.TimeLeft`, `Player.TimeLeftForm`: no shape is promised for a negative time beyond the prefix and the length; C# prints it with minus signs (for -700 seconds, "Time Remaining: -11:-40"), and so does the model.
- `_timerEnded`: the field in `PlayerStats` is never read or written after its initialiser.
- `Scenes.SceneController`: the static `_currentScene` at `GDGame/Scripts/Systems/SceneController.cs:20` is a field of each controller, so "no current scene" at construction holds for the first controller only; a second C# controller would share the first one's current scene.
- `Input.InputManager`: the static `_movementKeys` at `GDGame/Scripts/Systems/InputManager.cs:42` is a field of each manager, so "movement keys start as `Keys.None`" holds for the first manager only; in C# a later manager sees the keys an earlier `Initialise` stored.
- `Localisation.LocalisationController.Get`: a Dafny string cannot be null, so the ArgumentNullException that `TryGetValue` throws for a null key (`GDGame/Scripts/Systems/LocalisationController.cs:95`) is not modelled.
- `SceneController`: `AddToCurrentScene`, `SetActiveCamera`, `Update` and `Draw` forward to the engine scene and are not modelled. A scene is known only by its name.
- Menu panel layout: `BuildPanels` creates widgets, positions, backgrounds and sliders. It is reduced to the visibility flags it sets. The panel backgrounds are stored but not used.
- `MenuManager` and `MenuController` requests: `Click` returns the `PlayRequested` or `ExitRequested` request instead of invoking C# events whose subscribers are outside the core. The slider callbacks `MusicVolumeChanged` and `SfxVolumeChanged` are not modelled.
- `GameMenu.MenuController`: `Game.IsMouseVisible`, `SetReticleVisible` (a scene search for the HUD object) and the empty `HandleLanguageSwap` are not modelled.
- `TimeGate.TimeController.constructor`, `Localisation.LocalisationController.constructor`, `PauseOverlay.PauseMenu.constructor`, `Input.InputManager.constructor`: the first three receive the slot they subscribe to, and the input manager returns the signals it raises instead of keeping the input and player channels (`GDGame/Scripts/Systems/InputManager.cs:63-64`). None of them fetches `EventChannelManager.Instance`, so the throw before the registry is initialised is modelled only in `ManagerInstance.Instance` and `MenuController.Initialize`.
- `PauseOverlay.PauseMenu`: creating the game object, adding it to the current scene, the text provider that calls `LocalisationController.Instance.Get`, and the unused `HandleButtonClick` are engine work.
- Handler exceptions and re-entrancy during `Raise`: they are outside the model. A handler that throws would stop the rest of the invocation list.
- The collision-to-event bridge and the intro-skip wiring in `GDGame/Main.cs`: `GDGame/Main.cs` is application glue and is not part of this model, apart from its second pause subscription.
