/**
 * `HorseAnimationController`: the horse's animator speed ramps toward a target when
 * its traveler starts or stops, a jump request starts at most one jump at a time, and
 * game over stops the horse, takes away its input and plays the death animation.
 *
 * The animator, the audio source and the debug log are not modelled as objects: the
 * calls the controller makes on them that matter to the game are recorded, in order,
 * in `actions`.
 */
module Horses {
  import opened Geometry
  import opened Travelers

  /** The observable calls the controller makes, in the order it makes them. */
  datatype HorseAction =
    | SpeedSet(speed: real)   // animator.SetFloat("Speed", …)
    | JumpTriggered           // animator.SetTrigger("Jump")
    | JumpSoundPlayed         // audioSource.PlayOneShot(jumpSound)
    | TravelerStopped         // splineTraveler.StopMoving()
    | TravelerDisabled        // splineTraveler.enabled = false
    | InputDisabled           // playerInputHandler.enabled = false
    | DeathTriggered          // animator.SetTrigger("Die")

  /** `Mathf.Epsilon`, the smallest positive single-precision value. */
  const FloatEpsilon: real := 0.000000000000000000000000000000000000000000001401298

  /** `Mathf.Approximately`: equal up to a relative 10⁻⁶ or eight times `Mathf.Epsilon`. */
  predicate Approximately(a: real, b: real) {
    Abs(b - a) < Max(0.000001 * Max(Abs(a), Abs(b)), FloatEpsilon * 8.0)
  }

  function Abs(x: real): real { if x < 0.0 then -x else x }

  /** A value always counts as approximately equal to itself. */
  lemma ApproximatelyReflexive(a: real)
    ensures Approximately(a, a)
  {
  }

  /** One step of at most `step` toward `target`, stopping at the target rather than passing it. */
  function Approach(current: real, target: real, step: real): (r: real)
    requires step >= 0.0
    ensures target >= current ==> current <= r <= target
    ensures target <= current ==> target <= r <= current
    ensures r == target || Abs(r - current) == step
    ensures Abs(current - target) <= step ==> r == target
  {
    if target > current then Min(current + step, target)
    else if target < current then Max(current - step, target)
    else current
  }

  /**
   * The new speed of `UpdateSpeedTransition`: a step of `deltaTime / transitionDuration`
   * toward the target. A zero duration makes the step infinite (or NaN when `deltaTime`
   * is 0 too); either way `Mathf.Min`/`Mathf.Max` then return the target, so the speed
   * lands on the target in one update.
   */
  function SpeedStep(current: real, target: real, dt: real, duration: real): (r: real)
    requires dt >= 0.0 && duration >= 0.0
    ensures target >= current ==> current <= r <= target
    ensures target <= current ==> target <= r <= current
    ensures duration == 0.0 ==> r == target
  {
    if duration == 0.0 then target else Approach(current, target, dt / duration)
  }

  /** The speed after `n` updates of the same length. */
  function ApproachN(current: real, target: real, step: real, n: nat): real
    requires step >= 0.0
  {
    if n == 0 then current else Approach(ApproachN(current, target, step, n - 1), target, step)
  }

  /** How far `n` updates of `step` each can move the speed: `n · step`, added up step by step. */
  function Travel(step: real, n: nat): (r: real)
    requires step >= 0.0
    ensures r >= 0.0
  {
    if n == 0 then 0.0 else Travel(step, n - 1) + step
  }

  lemma {:induction false} TravelIsProduct(step: real, n: nat)
    requires step >= 0.0
    ensures Travel(step, n) == n as real * step
  {
    if n > 0 {
      TravelIsProduct(step, n - 1);
      RealMulSucc(n - 1, step);
    }
  }

  lemma RealMulSucc(k: nat, step: real)
    ensures (k + 1) as real * step == k as real * step + step
  {
  }

  /**
   * After `n` updates the speed is `n · step` closer to the target, or on it, and it
   * has stayed between its start and the target: a ramp of duration `d` from `s`
   * reaches `t` after `|t − s| · d / deltaTime` updates.
   */
  lemma ApproachNDistance(current: real, target: real, step: real, n: nat)
    requires step >= 0.0
    ensures Abs(ApproachN(current, target, step, n) - target) == Max(Abs(current - target) - n as real * step, 0.0)
    ensures target >= current ==> current <= ApproachN(current, target, step, n) <= target
    ensures target <= current ==> target <= ApproachN(current, target, step, n) <= current
  {
    ApproachNTravel(current, target, step, n);
    TravelIsProduct(step, n);
  }

  lemma {:induction false} ApproachNTravel(current: real, target: real, step: real, n: nat)
    requires step >= 0.0
    ensures Abs(ApproachN(current, target, step, n) - target) == Max(Abs(current - target) - Travel(step, n), 0.0)
    ensures target >= current ==> current <= ApproachN(current, target, step, n) <= target
    ensures target <= current ==> target <= ApproachN(current, target, step, n) <= current
  {
    if n > 0 {
      ApproachNTravel(current, target, step, n - 1);
      ApproachDistance(ApproachN(current, target, step, n - 1), target, step);
    }
  }

  /** One step shortens the distance to the target by `step`, down to 0. */
  lemma ApproachDistance(current: real, target: real, step: real)
    requires step >= 0.0
    ensures Abs(Approach(current, target, step) - target) == Max(Abs(current - target) - step, 0.0)
  {
  }

  /** `PlayerInputHandler`, which is not part of this model, reduced to its `enabled` flag. */
  class InputHandler {
    var enabled: bool

    constructor ()
      ensures enabled
    {
      enabled := true;
    }
  }

  class HorseAnimationController {
    const traveler: SplineTraveler?
    const input: InputHandler?
    /** Whether a jump sound and an audio source are both assigned. */
    const canPlayJumpSound: bool
    var transitionDuration: real
    var targetSpeed: real
    var currentSpeed: real
    var isTransitioning: bool
    var isJumping: bool
    /** Whether `Start` subscribed the handlers to the traveler and the input. */
    var listening: bool
    /** Whether `Start` found a `LivesCounter` instance and subscribed to its game over. */
    var listeningForGameOver: bool
    var actions: seq<HorseAction>

    /** Every duration the controller uses is 0 or 1, so it is never negative. */
    predicate Valid()
      reads this
    {
      transitionDuration >= 0.0
    }

    function TravelerFrame(): set<SplineTraveler>
      reads this
    {
      if traveler == null then {} else {traveler}
    }

    function InputFrame(): set<InputHandler>
      reads this
    {
      if input == null then {} else {input}
    }

    /** The serialized defaults: duration 0, both speeds 0, not transitioning, not jumping. */
    constructor (traveler: SplineTraveler?, input: InputHandler?, canPlayJumpSound: bool)
      ensures Valid()
      ensures this.traveler == traveler && this.input == input && this.canPlayJumpSound == canPlayJumpSound
      ensures transitionDuration == 0.0 && targetSpeed == 0.0 && currentSpeed == 0.0
      ensures !isTransitioning && !isJumping && !listening && !listeningForGameOver && actions == []
    {
      this.traveler := traveler;
      this.input := input;
      this.canPlayJumpSound := canPlayJumpSound;
      transitionDuration := 0.0;
      targetSpeed := 0.0;
      currentSpeed := 0.0;
      isTransitioning := false;
      isJumping := false;
      listening := false;
      listeningForGameOver := false;
      actions := [];
    }

    /**
     * `Start`: subscribes to the traveler and the input (both must exist: the handlers
     * are attached without a null check), to game over when a `LivesCounter` exists, and
     * takes the animator's current speed as both the current and the target speed.
     */
    method Start(animatorSpeed: real, livesCounterPresent: bool)
      requires traveler != null && input != null
      modifies this`listening, this`listeningForGameOver, this`currentSpeed, this`targetSpeed
      ensures listening && listeningForGameOver == livesCounterPresent
      ensures currentSpeed == animatorSpeed && targetSpeed == animatorSpeed
    {
      listening := true;
      listeningForGameOver := livesCounterPresent;
      currentSpeed := animatorSpeed;
      targetSpeed := currentSpeed;
    }

    /** Sets the target and the duration and marks a transition; the current speed is left alone. */
    method StartSpeedTransition(newTargetSpeed: real, newTransitionDuration: real)
      requires newTransitionDuration >= 0.0
      modifies this`targetSpeed, this`transitionDuration, this`isTransitioning
      ensures Valid()
      ensures targetSpeed == newTargetSpeed && transitionDuration == newTransitionDuration && isTransitioning
    {
      targetSpeed := newTargetSpeed;
      transitionDuration := newTransitionDuration;
      isTransitioning := true;
    }

    /** The traveler started: ramp to speed 1 at once (duration 0). */
    method OnStartedMoving()
      modifies this`targetSpeed, this`transitionDuration, this`isTransitioning
      ensures Valid()
      ensures targetSpeed == 1.0 && transitionDuration == 0.0 && isTransitioning
    {
      StartSpeedTransition(1.0, 0.0);
    }

    /** The traveler stopped: ramp to speed 0 over one second. */
    method OnStoppedMoving()
      modifies this`targetSpeed, this`transitionDuration, this`isTransitioning
      ensures Valid()
      ensures targetSpeed == 0.0 && transitionDuration == 1.0 && isTransitioning
    {
      StartSpeedTransition(0.0, 1.0);
    }

    /**
     * One step of the ramp: the speed moves toward the target without passing it, is
     * handed to the animator, and the transition ends once the speed is approximately
     * the target.
     */
    method UpdateSpeedTransition(dt: real)
      requires Valid() && dt >= 0.0
      modifies this`currentSpeed, this`isTransitioning, this`actions
      ensures currentSpeed == SpeedStep(old(currentSpeed), targetSpeed, dt, transitionDuration)
      ensures actions == old(actions) + [SpeedSet(currentSpeed)]
      ensures isTransitioning == (old(isTransitioning) && !Approximately(currentSpeed, targetSpeed))
      ensures currentSpeed == targetSpeed ==> !isTransitioning
    {
      if transitionDuration == 0.0 {
        currentSpeed := targetSpeed;
      } else {
        var step := dt / transitionDuration;
        if targetSpeed > currentSpeed {
          currentSpeed := Min(currentSpeed + step, targetSpeed);
        } else if targetSpeed < currentSpeed {
          currentSpeed := Max(currentSpeed - step, targetSpeed);
        }
      }
      actions := actions + [SpeedSet(currentSpeed)];
      ApproximatelyReflexive(currentSpeed);
      if Approximately(currentSpeed, targetSpeed) {
        isTransitioning := false;
      }
    }

    /** `Update`: steps the ramp only while a transition is running. */
    method Update(dt: real)
      requires Valid() && dt >= 0.0
      modifies this`currentSpeed, this`isTransitioning, this`actions
      ensures !old(isTransitioning) ==>
                currentSpeed == old(currentSpeed) && !isTransitioning && actions == old(actions)
      ensures old(isTransitioning) ==>
                && currentSpeed == SpeedStep(old(currentSpeed), targetSpeed, dt, transitionDuration)
                && actions == old(actions) + [SpeedSet(currentSpeed)]
                && isTransitioning == !Approximately(currentSpeed, targetSpeed)
    {
      if isTransitioning {
        UpdateSpeedTransition(dt);
      }
    }

    /**
     * `OnJumpPerformed`: starts the jump (its trigger fires at once) only when no jump
     * is running, but plays the jump sound on every request.
     */
    method OnJumpPerformed()
      modifies this`isJumping, this`actions
      ensures isJumping
      ensures actions == old(actions) + (if old(isJumping) then [] else [JumpTriggered])
                                      + (if canPlayJumpSound then [JumpSoundPlayed] else [])
    {
      if !isJumping {
        isJumping := true;
        actions := actions + [JumpTriggered];
      }
      if canPlayJumpSound {
        actions := actions + [JumpSoundPlayed];
      }
    }

    /** The end of the jump boost: a new jump may start again. */
    method FinishJump()
      modifies this`isJumping
      ensures !isJumping
    {
      isJumping := false;
    }

    /**
     * `PlayDeathAnimation`: stops the traveler (whose stop event, when this controller
     * listens to it, starts the ramp down to 0), disables it, disables the input, and
     * only then triggers the death animation.
     */
    method PlayDeathAnimation()
      requires Valid()
      modifies this`actions, this`targetSpeed, this`transitionDuration, this`isTransitioning
      modifies TravelerFrame()`isMoving, TravelerFrame()`events, TravelerFrame()`enabled, InputFrame()`enabled
      ensures Valid()
      ensures actions == old(actions) + DeathActions(traveler != null, input != null)
      ensures traveler != null ==>
                && !traveler.isMoving && !traveler.enabled
                && traveler.events == old(traveler.events) + [StoppedMoving]
      ensures input != null ==> !input.enabled
      ensures traveler != null && listening ==> targetSpeed == 0.0 && transitionDuration == 1.0 && isTransitioning
      ensures !(traveler != null && listening) ==>
                && targetSpeed == old(targetSpeed) && transitionDuration == old(transitionDuration)
                && isTransitioning == old(isTransitioning)
    {
      if traveler != null {
        traveler.StopMoving();
        if listening {
          OnStoppedMoving();
        }
        actions := actions + [TravelerStopped];
        traveler.enabled := false;
        actions := actions + [TravelerDisabled];
      }
      if input != null {
        input.enabled := false;
        actions := actions + [InputDisabled];
      }
      actions := actions + [DeathTriggered];
    }
  }

  /**
   * The calls `PlayDeathAnimation` makes, given which components exist: the horse is
   * stopped before anything else is switched off, and the death animation comes last.
   */
  function DeathActions(hasTraveler: bool, hasInput: bool): (r: seq<HorseAction>)
    ensures |r| == 1 + (if hasTraveler then 2 else 0) + (if hasInput then 1 else 0)
    ensures r[|r| - 1] == DeathTriggered
    ensures forall k :: 0 <= k < |r| - 1 ==> r[k] != DeathTriggered
    ensures hasTraveler <==> TravelerStopped in r
    ensures hasInput <==> InputDisabled in r
    ensures hasTraveler ==> r[0] == TravelerStopped && r[1] == TravelerDisabled
    ensures hasInput ==> r[|r| - 2] == InputDisabled
  {
    (if hasTraveler then [TravelerStopped, TravelerDisabled] else [])
    + (if hasInput then [InputDisabled] else [])
    + [DeathTriggered]
  }
}
