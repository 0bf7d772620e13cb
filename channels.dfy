/**
  Event channels: fixed bundles of event slots, one class per concern
  (input, audio, game lifecycle, player), and EventBaseList, which clears an
  arbitrary list of slots. Slot fields are `const`: each channel creates its
  slots once, and clearing a channel empties them without replacing them.
 */
module Channels {
  import opened EventSlots

  /** No two entries of `s` are the same object. */
  ghost predicate Distinct(s: seq<object>)
  {
    forall i, j :: 0 <= i < j < |s| ==> s[i] != s[j]
  }

  /** Input events. MovementInput carries a direction code; the others carry nothing. */
  class InputEventChannel {
    const fullscreenToggle: EventBase
    const pauseToggle: EventBase
    const applicationExit: EventBase
    const movementInput: PayloadEvent<int>
    const languageSwap: EventBase

    ghost function Slots(): set<object>
    {
      {fullscreenToggle, pauseToggle, applicationExit, movementInput, languageSwap}
    }

    /** The five slots are five separate objects. */
    ghost predicate Valid()
    {
      Distinct([fullscreenToggle, pauseToggle, applicationExit, movementInput, languageSwap])
    }

    ghost predicate IsClear()
      reads Slots()
    {
      && fullscreenToggle.handlers == []
      && pauseToggle.handlers == []
      && applicationExit.handlers == []
      && movementInput.handlers == []
      && languageSwap.handlers == []
    }

    constructor ()
      ensures Valid() && fresh(Slots()) && IsClear()
    {
      fullscreenToggle := new EventBase();
      pauseToggle := new EventBase();
      applicationExit := new EventBase();
      movementInput := new PayloadEvent<int>();
      languageSwap := new EventBase();
    }

    /** Unsubscribes everything from every slot of the channel. */
    method ClearEventChannel()
      modifies Slots()
      ensures IsClear()
    {
      fullscreenToggle.UnsubscribeAll();
      pauseToggle.UnsubscribeAll();
      applicationExit.UnsubscribeAll();
      movementInput.UnsubscribeAll();
      languageSwap.UnsubscribeAll();
    }
  }

  /** Audio events: music and sound-effect requests by key, and volume changes. */
  class AudioEventChannel {
    const onMusicRequested: PayloadEvent<string>
    const onSFXRequested: PayloadEvent<string>
    const onMusicVolumeChanged: PayloadEvent<real>
    const onSFXVolumeChanged: PayloadEvent<real>

    ghost function Slots(): set<object>
    {
      {onMusicRequested as object, onSFXRequested, onMusicVolumeChanged, onSFXVolumeChanged}
    }

    ghost predicate Valid()
    {
      Distinct([onMusicRequested as object, onSFXRequested, onMusicVolumeChanged, onSFXVolumeChanged])
    }

    ghost predicate IsClear()
      reads Slots()
    {
      && onMusicRequested.handlers == []
      && onSFXRequested.handlers == []
      && onMusicVolumeChanged.handlers == []
      && onSFXVolumeChanged.handlers == []
    }

    constructor ()
      ensures Valid() && fresh(Slots()) && IsClear()
    {
      onMusicRequested := new PayloadEvent<string>();
      onSFXRequested := new PayloadEvent<string>();
      onMusicVolumeChanged := new PayloadEvent<real>();
      onSFXVolumeChanged := new PayloadEvent<real>();
    }

    method ClearEventChannel()
      modifies Slots()
      ensures IsClear()
    {
      onMusicRequested.UnsubscribeAll();
      onSFXRequested.UnsubscribeAll();
      onMusicVolumeChanged.UnsubscribeAll();
      onSFXVolumeChanged.UnsubscribeAll();
    }
  }

  /** Game lifecycle events. */
  class GameEventChannel {
    const onGameStarted: EventBase
    const onGamePaused: EventBase
    const onGameUnpaused: EventBase

    ghost function Slots(): set<object>
    {
      {onGameStarted, onGamePaused, onGameUnpaused}
    }

    ghost predicate Valid()
    {
      Distinct([onGameStarted, onGamePaused, onGameUnpaused])
    }

    ghost predicate IsClear()
      reads Slots()
    {
      onGameStarted.handlers == [] && onGamePaused.handlers == [] && onGameUnpaused.handlers == []
    }

    constructor ()
      ensures Valid() && fresh(Slots()) && IsClear()
    {
      onGameStarted := new EventBase();
      onGamePaused := new EventBase();
      onGameUnpaused := new EventBase();
    }

    method ClearEventChannel()
      modifies Slots()
      ensures IsClear()
    {
      onGameStarted.UnsubscribeAll();
      onGamePaused.UnsubscribeAll();
      onGameUnpaused.UnsubscribeAll();
    }
  }

  /** Player outcome events. */
  class PlayerEventChannel {
    const playerLose: EventBase
    const playerWin: EventBase

    ghost function Slots(): set<object>
    {
      {playerLose, playerWin}
    }

    ghost predicate Valid()
    {
      playerLose != playerWin
    }

    ghost predicate IsClear()
      reads Slots()
    {
      playerLose.handlers == [] && playerWin.handlers == []
    }

    constructor ()
      ensures Valid() && fresh(Slots()) && IsClear()
    {
      playerLose := new EventBase();
      playerWin := new EventBase();
    }

    method ClearEventChannel()
      modifies Slots()
      ensures IsClear()
    {
      playerLose.UnsubscribeAll();
      playerWin.UnsubscribeAll();
    }
  }

  /** A .NET `List<EventBase>`: one mutable list object that several owners may share. */
  class SlotList {
    var items: seq<EventBase>

    constructor (items: seq<EventBase>)
      ensures this.items == items
    {
      this.items := items;
    }
  }

  /** Clears a list of slots it shares with whoever built it. */
  class EventBaseList {
    const events: SlotList

    /** Keeps a reference to the caller's list; it does not copy it. */
    constructor (events: SlotList)
      ensures this.events == events
    {
      this.events := events;
    }

    /**
      Unsubscribes everything from every slot in the list, then empties the
      list itself, which is the caller's list too. Slots outside the list
      are not touched.
     */
    method ClearList()
      modifies events, events.items
      ensures events.items == []
      ensures forall e :: e in old(events.items) ==> e.handlers == []
    {
      var i := 0;
      while i < |events.items|
        invariant 0 <= i <= |events.items|
        invariant events.items == old(events.items)
        invariant forall j :: 0 <= j < i ==> events.items[j].handlers == []
      {
        events.items[i].UnsubscribeAll();
        i := i + 1;
      }
      events.items := [];
    }
  }
}
