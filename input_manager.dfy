/**
  The input edge detector. Once per frame InputManager compares the new
  keyboard state with the previous one and raises a channel event for each
  bound key that went down this frame, in a fixed order. A keyboard state
  is the set of keys held down; the events raised are returned as signals.
 */
module Input {

  /** The keyboard keys the model distinguishes; `NoKey` is `Keys.None`. */
  datatype Key = NoKey | Q | F11 | E | W | S | A | D | L | O | P | Escape | OtherKey(code: nat)

  /**
    The events the input code can raise: the five slots of the input
    channel, and orb-collected / player-damaged on the player channel.
   */
  datatype InputSignal =
    | FullscreenToggle
    | ApplicationExit
    | LanguageSwap
    | OrbCollected
    | PlayerDamaged(amount: int)
    | PauseToggle
    | MovementInput(direction: int)

  const PauseKey: Key := Q
  const FullscreenKey: Key := F11
  const ExitKey: Key := E
  const ForwardKey: Key := W
  const BackwardKey: Key := S
  const LeftKey: Key := A
  const RightKey: Key := D
  const LanguageSwitchKey: Key := L
  const OrbTestKey: Key := O
  const DamageTestKey: Key := P

  /** The damage the damage-test key deals. */
  const DamageTestAmount := 5

  /** `key` went down this frame: held now and not held in the previous frame. */
  predicate IsPressed(newState: set<Key>, oldState: set<Key>, key: Key)
  {
    key in newState && key !in oldState
  }

  /** One CheckFor* step: `signal` is raised exactly when `key` went down. */
  function CheckFor(newState: set<Key>, oldState: set<Key>, key: Key, signal: InputSignal): seq<InputSignal>
  {
    if IsPressed(newState, oldState, key) then [signal] else []
  }

  /**
    CheckForInputs: the six checks, in the order they run. At most one event
    per check, and none in a frame where no key went down.
   */
  function CheckForInputs(newState: set<Key>, oldState: set<Key>): (raised: seq<InputSignal>)
    ensures |raised| <= |Bindings|
    ensures newState <= oldState ==> raised == []
  {
    CheckFor(newState, oldState, FullscreenKey, FullscreenToggle)
    + CheckFor(newState, oldState, ExitKey, ApplicationExit)
    + CheckFor(newState, oldState, LanguageSwitchKey, LanguageSwap)
    + CheckFor(newState, oldState, OrbTestKey, OrbCollected)
    + CheckFor(newState, oldState, DamageTestKey, PlayerDamaged(DamageTestAmount))
    + CheckFor(newState, oldState, PauseKey, PauseToggle)
  }

  /** A key and the event it raises. */
  datatype Binding = Binding(key: Key, signal: InputSignal)

  /** The key bindings, in the order the checks run. */
  const Bindings: seq<Binding> := [
    Binding(F11, FullscreenToggle),
    Binding(E, ApplicationExit),
    Binding(L, LanguageSwap),
    Binding(O, OrbCollected),
    Binding(P, PlayerDamaged(5)),
    Binding(Q, PauseToggle)
  ]

  /** The place of a signal in the check order (movement is never checked). */
  function Rank(s: InputSignal): nat
  {
    match s
    case FullscreenToggle => 0
    case ApplicationExit => 1
    case LanguageSwap => 2
    case OrbCollected => 3
    case PlayerDamaged(_) => 4
    case PauseToggle => 5
    case MovementInput(_) => 6
  }

  /** Reference definition: the signals of the bindings whose key went down, in table order. */
  function Select(bs: seq<Binding>, newState: set<Key>, oldState: set<Key>): seq<InputSignal>
  {
    if bs == [] then []
    else CheckFor(newState, oldState, bs[0].key, bs[0].signal) + Select(bs[1..], newState, oldState)
  }

  /** The checks raise exactly what the binding table selects. */
  lemma CheckForInputsFollowsBindings(newState: set<Key>, oldState: set<Key>)
    ensures CheckForInputs(newState, oldState) == Select(Bindings, newState, oldState)
  {
    var n, o := newState, oldState;
    assert Bindings[1..][1..][1..][1..][1..][1..] == [];
    calc {
      Select(Bindings, n, o);
      CheckFor(n, o, F11, FullscreenToggle) + Select(Bindings[1..], n, o);
      CheckFor(n, o, F11, FullscreenToggle) + (CheckFor(n, o, E, ApplicationExit) + Select(Bindings[1..][1..], n, o));
      CheckFor(n, o, F11, FullscreenToggle) + (CheckFor(n, o, E, ApplicationExit) + (CheckFor(n, o, L, LanguageSwap)
        + Select(Bindings[1..][1..][1..], n, o)));
      CheckFor(n, o, F11, FullscreenToggle) + (CheckFor(n, o, E, ApplicationExit) + (CheckFor(n, o, L, LanguageSwap)
        + (CheckFor(n, o, O, OrbCollected) + Select(Bindings[1..][1..][1..][1..], n, o))));
      CheckFor(n, o, F11, FullscreenToggle) + (CheckFor(n, o, E, ApplicationExit) + (CheckFor(n, o, L, LanguageSwap)
        + (CheckFor(n, o, O, OrbCollected) + (CheckFor(n, o, P, PlayerDamaged(5))
        + Select(Bindings[1..][1..][1..][1..][1..], n, o)))));
      CheckForInputs(n, o);
    }
  }

  /** A signal is selected exactly when some binding for it had its key go down. */
  lemma {:induction false} SelectMembers(bs: seq<Binding>, newState: set<Key>, oldState: set<Key>, s: InputSignal)
    ensures s in Select(bs, newState, oldState) <==>
      exists k :: 0 <= k < |bs| && bs[k].signal == s && IsPressed(newState, oldState, bs[k].key)
  {
    if bs != [] {
      SelectMembers(bs[1..], newState, oldState, s);
      if s in Select(bs[1..], newState, oldState) {
        var k :| 0 <= k < |bs[1..]| && bs[1..][k].signal == s && IsPressed(newState, oldState, bs[1..][k].key);
        assert bs[k + 1] == bs[1..][k];
      }
      if exists k :: 0 <= k < |bs| && bs[k].signal == s && IsPressed(newState, oldState, bs[k].key) {
        var k :| 0 <= k < |bs| && bs[k].signal == s && IsPressed(newState, oldState, bs[k].key);
        if k > 0 {
          assert bs[1..][k - 1] == bs[k];
        }
      }
    }
  }

  /** A table whose ranks increase selects signals whose ranks increase. */
  lemma {:induction false} SelectKeepsOrder(bs: seq<Binding>, newState: set<Key>, oldState: set<Key>)
    requires forall i, j :: 0 <= i < j < |bs| ==> Rank(bs[i].signal) < Rank(bs[j].signal)
    ensures var r := Select(bs, newState, oldState);
      forall i, j :: 0 <= i < j < |r| ==> Rank(r[i]) < Rank(r[j])
  {
    if bs != [] {
      var head := CheckFor(newState, oldState, bs[0].key, bs[0].signal);
      var tail := Select(bs[1..], newState, oldState);
      SelectKeepsOrder(bs[1..], newState, oldState);
      forall j | 0 <= j < |tail|
        ensures Rank(bs[0].signal) < Rank(tail[j])
      {
        SelectMembers(bs[1..], newState, oldState, tail[j]);
        var k :| 0 <= k < |bs[1..]| && bs[1..][k].signal == tail[j] && IsPressed(newState, oldState, bs[1..][k].key);
        assert bs[1..][k] == bs[k + 1];
      }
      var r := head + tail;
      forall i, j | 0 <= i < j < |r|
        ensures Rank(r[i]) < Rank(r[j])
      {
        if i < |head| {
          assert r[i] == bs[0].signal && r[j] == tail[j - |head|];
        } else {
          assert r[i] == tail[i - |head|] && r[j] == tail[j - |head|];
        }
      }
    }
  }

  /**
    An event is raised in a frame exactly when its key went down in that
    frame: held this frame and not the previous one (both directions).
   */
  lemma RaisedIffRisingEdge(newState: set<Key>, oldState: set<Key>, b: Binding)
    requires b in Bindings
    ensures b.signal in CheckForInputs(newState, oldState) <==> IsPressed(newState, oldState, b.key)
  {
    CheckForInputsFollowsBindings(newState, oldState);
    SelectMembers(Bindings, newState, oldState, b.signal);
    var k :| 0 <= k < |Bindings| && Bindings[k] == b;
    assert forall j :: 0 <= j < |Bindings| && j != k ==> Bindings[j].signal != b.signal by {
      if k == 0 {} else if k == 1 {} else if k == 2 {} else if k == 3 {} else if k == 4 {} else {}
    }
  }

  /**
    Within a frame the events come in the fixed order fullscreen, exit,
    language swap, orb test, damage test, pause, each at most once.
   */
  lemma RaisedInFixedOrder(newState: set<Key>, oldState: set<Key>)
    ensures var r := CheckForInputs(newState, oldState);
      forall i, j :: 0 <= i < j < |r| ==> Rank(r[i]) < Rank(r[j])
  {
    CheckForInputsFollowsBindings(newState, oldState);
    SelectKeepsOrder(Bindings, newState, oldState);
  }

  /**
    Every event raised is one of the bound ones: never a movement event, and
    the damage test always carries `DamageTestAmount`.
   */
  lemma RaisedSignalsAreBound(newState: set<Key>, oldState: set<Key>, s: InputSignal)
    requires s in CheckForInputs(newState, oldState)
    ensures !s.MovementInput?
    ensures s.PlayerDamaged? ==> s.amount == DamageTestAmount
  {
  }

  /** With the same keys held as in the previous frame, nothing is raised. */
  lemma HeldKeysRaiseNothing(keys: set<Key>)
    ensures CheckForInputs(keys, keys) == []
  {
  }

  /** The movement keys handed to player movement (`MovementKeys`). */
  datatype MovementKeys = MovementKeys(forward: Key, right: Key, back: Key, left: Key)

  class InputManager {
    var newKBState: set<Key>
    var oldKBState: set<Key>
    /** The static `_movementKeys`; every field is `Keys.None` until Initialise. */
    var movementKeys: MovementKeys

    constructor ()
      ensures newKBState == {} && oldKBState == {}
      ensures movementKeys == MovementKeys(NoKey, NoKey, NoKey, NoKey)
    {
      newKBState, oldKBState := {}, {};
      movementKeys := MovementKeys(NoKey, NoKey, NoKey, NoKey);
    }

    /** Records W/D/S/A as the movement keys; it raises nothing. */
    method Initialise()
      modifies this
      ensures movementKeys == MovementKeys(ForwardKey, RightKey, BackwardKey, LeftKey)
      ensures newKBState == old(newKBState) && oldKBState == old(oldKBState)
    {
      movementKeys := MovementKeys(forward := ForwardKey, right := RightKey, back := BackwardKey, left := LeftKey);
    }

    /**
      One frame: reads the keyboard (`current`), raises the events of the
      keys that went down since the previous frame, and keeps `current` as
      the previous state for the next frame.
     */
    method Update(current: set<Key>) returns (raised: seq<InputSignal>)
      modifies this
      ensures raised == CheckForInputs(current, old(oldKBState))
      ensures newKBState == current && oldKBState == current
      ensures movementKeys == old(movementKeys)
    {
      newKBState := current;
      raised := CheckForInputs(newKBState, oldKBState);
      oldKBState := newKBState;
    }
  }
}
