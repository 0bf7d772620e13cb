/**
  The channel registry. EventChannelManager owns one instance of each
  channel. Its static `_instance`, with `Instance` and `Initialise`, is the
  explicit object ManagerInstance: it holds the instance, or null before
  Initialise has run.
 */
module ChannelRegistry {
  import opened Wrappers
  import opened Channels

  /** The message of the exception that `Instance` throws before `Initialise`. */
  const NotInitialisedMessage := "Ensure you call Initialise() first"

  class EventChannelManager {
    const inputEvents: InputEventChannel
    const playerEvents: PlayerEventChannel
    const audioEvents: AudioEventChannel
    const gameEvents: GameEventChannel

    /** Every slot of every owned channel. */
    ghost function Slots(): set<object>
    {
      inputEvents.Slots() + playerEvents.Slots() + audioEvents.Slots() + gameEvents.Slots()
    }

    /** Each channel is well formed and no slot is shared between two channels. */
    ghost predicate Valid()
    {
      && inputEvents.Valid() && playerEvents.Valid() && audioEvents.Valid() && gameEvents.Valid()
      && inputEvents.Slots() !! playerEvents.Slots()
      && inputEvents.Slots() !! audioEvents.Slots()
      && inputEvents.Slots() !! gameEvents.Slots()
      && playerEvents.Slots() !! audioEvents.Slots()
      && playerEvents.Slots() !! gameEvents.Slots()
      && audioEvents.Slots() !! gameEvents.Slots()
    }

    ghost predicate IsClear()
      reads Slots()
    {
      inputEvents.IsClear() && playerEvents.IsClear() && audioEvents.IsClear() && gameEvents.IsClear()
    }

    /** Four new channels, each with new, empty slots. */
    constructor ()
      ensures Valid() && fresh(Slots()) && IsClear()
      ensures fresh(inputEvents) && fresh(playerEvents) && fresh(audioEvents) && fresh(gameEvents)
    {
      inputEvents := new InputEventChannel();
      playerEvents := new PlayerEventChannel();
      audioEvents := new AudioEventChannel();
      gameEvents := new GameEventChannel();
    }

    /**
      Clears every channel. The manager and its channels stay as they are
      (the fields are constant), so they remain usable afterwards.
     */
    method ClearEventChannels()
      requires Valid()
      modifies Slots()
      ensures IsClear()
    {
      inputEvents.ClearEventChannel();
      playerEvents.ClearEventChannel();
      assert inputEvents.IsClear();
      audioEvents.ClearEventChannel();
      assert inputEvents.IsClear() && playerEvents.IsClear();
      gameEvents.ClearEventChannel();
    }
  }

  /** The lazily initialised singleton slot `EventChannelManager._instance`. */
  class ManagerInstance {
    var instance: EventChannelManager?

    /** Before `Initialise` there is no instance. */
    constructor ()
      ensures instance == null
    {
      instance := null;
    }

    /** The registered manager; throws InvalidOperationException before `Initialise`. */
    function Instance(): (r: Result<EventChannelManager>)
      reads this
      ensures r.Err? <==> instance == null
      ensures r.Err? ==> r.error == InvalidOperation(NotInitialisedMessage)
      ensures r.Ok? ==> r.value == instance
    {
      if instance == null then Err(InvalidOperation(NotInitialisedMessage))
      else var m: EventChannelManager := instance; Ok(m)
    }

    /**
      Creates the manager the first time; later calls keep the existing
      manager and do nothing.
     */
    method Initialise()
      modifies this
      ensures instance != null
      ensures old(instance) != null ==> instance == old(instance)
      ensures old(instance) == null ==>
        fresh(instance) && fresh(instance.Slots()) && instance.Valid() && instance.IsClear()
    {
      if instance != null {
        return;
      }
      instance := new EventChannelManager();
    }
  }
}
