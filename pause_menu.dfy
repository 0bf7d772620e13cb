/**
  The pause overlay: a panel with Resume and Quit buttons and a "paused"
  text, shown and hidden together by the pause event. The panel's
  `IsVisible` and the text's `Enabled` are fields of the model; creating
  the widgets and adding them to the current scene is engine work.
 */
module PauseOverlay {
  import opened EventSlots

  datatype PauseButton = ResumeButton | QuitButton

  /** The handlers a pause button can be wired to. */
  datatype PauseAction = TogglePauseMenu | ExitApplication

  /** The handler each button is wired to: both buttons toggle the overlay. */
  function ActionOf(b: PauseButton): PauseAction
  {
    TogglePauseMenu
  }

  /** No button exits the application: HandleExit is wired to nothing, Quit included. */
  lemma NoButtonExits(b: PauseButton)
    ensures ActionOf(b) != ExitApplication
    ensures ActionOf(QuitButton) == ActionOf(ResumeButton)
  {
  }

  class PauseMenu {
    var isVisible: bool
    var panelVisible: bool
    var textEnabled: bool
    /** The handler id under which HandlePauseToggle is subscribed. */
    const toggleId: HandlerId

    /** The panel and the text always show what `isVisible` says. */
    ghost predicate Valid()
      reads this
    {
      panelVisible == isVisible && textEnabled == isVisible
    }

    /** Starts hidden and subscribes HandlePauseToggle to the pause slot. */
    constructor (pauseToggle: EventBase, toggleId: HandlerId)
      modifies pauseToggle
      ensures this.toggleId == toggleId
      ensures !isVisible && !panelVisible && !textEnabled
      ensures Valid()
      ensures pauseToggle.handlers == old(pauseToggle.handlers) + [toggleId]
    {
      this.toggleId := toggleId;
      isVisible := false;
      panelVisible := isVisible;
      textEnabled := isVisible;
      new;
      pauseToggle.Subscribe(toggleId);
    }

    /** Flips the overlay and makes the panel and the text follow. */
    method HandlePauseToggle()
      modifies this
      ensures isVisible == !old(isVisible)
      ensures Valid()
    {
      isVisible := !isVisible;
      panelVisible := isVisible;
      textEnabled := isVisible;
    }

    /** A click on Resume or Quit runs the handler the button is wired to. */
    method Click(b: PauseButton)
      modifies this
      ensures isVisible == !old(isVisible)
      ensures Valid()
    {
      match ActionOf(b)
      case TogglePauseMenu => HandlePauseToggle();
    }
  }
}
