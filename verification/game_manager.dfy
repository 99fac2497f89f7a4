/**
 * `GameManager`: the notify-on-change game state, the `BreakOut` input that starts a
 * run, the static difficulty and the first-instance-wins singleton.
 *
 * The static members (`Instance`, `OnGameStateChanged`, `CurrentDifficulty`) live in one
 * `GameStatics` object; the static event is the log `stateChanges` of the states it
 * announced.
 */
module Games {

  /** Declared in a namespace this model does not include; no state is assumed to be the default. */
  datatype GameState = WaitingToStart | Playing | GameOver

  datatype Difficulty = Easy | Hard

  /** What `SetGameState(requested)` announces: the new state once, or nothing when it is unchanged. */
  function Announced(current: GameState, requested: GameState): (r: seq<GameState>)
    ensures |r| <= 1
    ensures r == [] <==> current == requested
    ensures r != [] ==> r[0] == requested
  {
    if current != requested then [requested] else []
  }

  /** The state the `BreakOut` input requests: `Playing` from `WaitingToStart`, none otherwise. */
  function BreakOutRequest(current: GameState): (r: GameState)
    ensures current == WaitingToStart ==> r == Playing
    ensures current != WaitingToStart ==> r == current
  {
    if current == WaitingToStart then Playing else current
  }

  /** A second `BreakOut` does nothing: only the first one starts the run and announces it. */
  lemma BreakOutOnce(current: GameState)
    ensures var s1 := BreakOutRequest(current);
            && BreakOutRequest(s1) == s1
            && Announced(s1, BreakOutRequest(s1)) == []
            && (current == WaitingToStart <==> Announced(current, s1) == [Playing])
  {}

  class GameStatics {
    var instance: GameManager?
    var currentDifficulty: Difficulty
    /** The calls made to `OnGameStateChanged`, in order. */
    var stateChanges: seq<GameState>

    /** No instance yet, no announcements, difficulty `Easy`. */
    constructor ()
      ensures instance == null && currentDifficulty == Easy && stateChanges == []
    {
      instance := null;
      currentDifficulty := Easy;
      stateChanges := [];
    }

    /** `SetDifficulty`: overwrites the static difficulty. */
    method SetDifficulty(difficulty: Difficulty)
      modifies this`currentDifficulty
      ensures currentDifficulty == difficulty
    {
      currentDifficulty := difficulty;
    }
  }

  class GameManager {
    const statics: GameStatics
    var currentState: GameState
    /** Whether `Destroy(gameObject)` was requested. */
    var destroyed: bool
    /** Whether the input actions were created. */
    var hasInputActions: bool

    constructor (statics: GameStatics, initial: GameState)
      ensures this.statics == statics && currentState == initial
      ensures !destroyed && !hasInputActions
    {
      this.statics := statics;
      currentState := initial;
      destroyed := false;
      hasInputActions := false;
    }

    /**
     * `Awake`: the first instance becomes `Instance` and creates its input actions;
     * any later instance is destroyed before creating them, leaving `Instance` alone.
     */
    method Awake()
      modifies this`destroyed, this`hasInputActions, statics`instance
      ensures old(statics.instance) == null ==>
                statics.instance == this && hasInputActions && destroyed == old(destroyed)
      ensures old(statics.instance) != null ==>
                statics.instance == old(statics.instance) && destroyed
                && hasInputActions == old(hasInputActions)
    {
      if statics.instance == null {
        statics.instance := this;
      } else {
        destroyed := true;
        return;
      }
      hasInputActions := true;
    }

    /** `SetGameState`: changes and announces only a different state. */
    method SetGameState(newState: GameState)
      modifies this`currentState, statics`stateChanges
      ensures currentState == newState
      ensures statics.stateChanges == old(statics.stateChanges) + Announced(old(currentState), newState)
    {
      if currentState != newState {
        currentState := newState;
        statics.stateChanges := statics.stateChanges + [currentState];
      }
    }

    function GetGameState(): (r: GameState)
      reads this
      ensures r == currentState
    {
      currentState
    }

    /** `OnBreakOutPerformed`: starts the run from `WaitingToStart`, ignored otherwise. */
    method OnBreakOutPerformed()
      modifies this`currentState, statics`stateChanges
      ensures currentState == BreakOutRequest(old(currentState))
      ensures statics.stateChanges == old(statics.stateChanges)
                                      + Announced(old(currentState), BreakOutRequest(old(currentState)))
    {
      if currentState == WaitingToStart {
        SetGameState(Playing);
      }
    }
  }
}
