/**
  The game-state reactor: a four-value state overwritten by every
  state-change event, with one dispatch branch (a log line) per state.
 */
module GameStates {

  datatype GameState = GameActive | GameInactive | GameOver | GameWon

  /** The branch CheckNewGameState takes for `s`, given by the line it logs: every state has one, a "Game ..." line. */
  function CheckNewGameState(s: GameState): (line: string)
    ensures |line| > 5 && line[..5] == "Game "
  {
    match s
    case GameActive => "Game Active"
    case GameInactive => "Game Inactive"
    case GameOver => "Game Over"
    case GameWon => "Game Won"
  }

  /** Every state has a branch of its own: no two states share one. */
  lemma BranchPerState(s: GameState, t: GameState)
    ensures CheckNewGameState(s) == CheckNewGameState(t) ==> s == t
  {
  }

  class GameStateManager {
    var gameState: GameState

    /** A new reactor is inactive. */
    constructor ()
      ensures gameState == GameInactive
    {
      gameState := GameInactive;
    }

    /**
      Overwrites the state with `state`, whatever the state was (no
      transition is refused), then dispatches on the new state; `log` is
      the line that dispatch writes.
     */
    method HandleGameStateChange(state: GameState) returns (log: string)
      modifies this
      ensures gameState == state
      ensures log == CheckNewGameState(state)
    {
      gameState := state;
      log := CheckNewGameState(gameState);
    }
  }
}
