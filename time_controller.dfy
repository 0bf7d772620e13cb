/**
  The time gate. TimeController keeps `_isPlaying` and writes the engine's
  global time scale, which is the explicit object Time here; it subscribes
  its TogglePause to the input channel's pause slot.
 */
module TimeGate {
  import opened EventSlots

  /** The engine's shared `Time.TimeScale`, read by every per-frame consumer. */
  class Time {
    var timeScale: real

    constructor (timeScale: real)
      ensures this.timeScale == timeScale
    {
      this.timeScale := timeScale;
    }
  }

  /** The time scale that belongs to a playing / paused game. */
  function ScaleFor(playing: bool): real
  {
    if playing then 1.0 else 0.0
  }

  /** `playing` negated `k` times: the state after `k` calls of TogglePause. */
  function Flipped(playing: bool, k: nat): bool
  {
    if k == 0 then playing else !Flipped(playing, k - 1)
  }

  /** An even number of toggles is a no-op; an odd number is one toggle. */
  lemma {:induction false} FlippedParity(playing: bool, k: nat)
    ensures Flipped(playing, k) == if k % 2 == 0 then playing else !playing
  {
    if k > 0 {
      FlippedParity(playing, k - 1);
    }
  }

  class TimeController {
    var isPlaying: bool
    const time: Time
    /** The handler id under which TogglePause is subscribed. */
    const togglePauseId: HandlerId

    /** The scale is 1 while playing and 0 while paused. */
    ghost predicate Valid()
      reads this, time
    {
      time.timeScale == ScaleFor(isPlaying)
    }

    /** Starts playing at scale 1 and subscribes TogglePause to the pause slot. */
    constructor (time: Time, pauseToggle: EventSlots.EventBase, togglePauseId: HandlerId)
      modifies time, pauseToggle
      ensures this.time == time && this.togglePauseId == togglePauseId
      ensures isPlaying && time.timeScale == 1.0 && Valid()
      ensures pauseToggle.handlers == old(pauseToggle.handlers) + [togglePauseId]
    {
      isPlaying := true;
      this.time := time;
      this.togglePauseId := togglePauseId;
      new;
      time.timeScale := 1.0;
      pauseToggle.Subscribe(togglePauseId);
    }

    /**
      Pauses (scale 0) when playing and resumes (scale 1) when paused. Valid
      holds afterwards whatever the scale was before.
     */
    method TogglePause()
      modifies this, time
      ensures isPlaying == !old(isPlaying)
      ensures time.timeScale == if old(isPlaying) then 0.0 else 1.0
      ensures Valid()
    {
      if isPlaying {
        time.timeScale := 0.0;
      } else {
        time.timeScale := 1.0;
      }
      isPlaying := !isPlaying;
    }

    /**
      This controller's part in a Raise of the pause slot whose calls were
      `trace`: TogglePause runs once for each registration of it.
     */
    method HandleRaise(trace: seq<HandlerId>)
      requires Valid()
      modifies this, time
      ensures isPlaying == Flipped(old(isPlaying), multiset(trace)[togglePauseId])
      ensures Valid()
    {
      var i := 0;
      while i < |trace|
        invariant 0 <= i <= |trace|
        invariant isPlaying == Flipped(old(isPlaying), multiset(trace[..i])[togglePauseId])
        invariant Valid()
      {
        assert trace[..i + 1] == trace[..i] + [trace[i]];
        if trace[i] == togglePauseId {
          TogglePause();
        }
        i := i + 1;
      }
      assert trace[..|trace|] == trace;
    }
  }
}
