/**
 * `LivesCounter`: the player's lives, a first-instance-wins singleton. Each deduction
 * takes one life but never goes below zero, always announces the new count, and
 * announces game over whenever it leaves the count at zero.
 *
 * The static `Instance` lives in a `LivesStatics` object. The two events are the log
 * `events` of the calls made to them.
 */
module Lives {

  /** What a deduction announces: `OnLivesChanged(n)` and `OnGameOver()`. */
  datatype LivesEvent = LivesChanged(lives: int) | GameOver

  /** The serialized default of `startLives`. */
  const DefaultStartLives: int := 8

  /** `Mathf.Max(0, lives - 1)`: one life fewer, but never below zero. */
  function Deducted(lives: int): (r: int)
    ensures r >= 0
    ensures lives >= 1 ==> r == lives - 1
    ensures lives <= 1 ==> r == 0
  {
    if 0 > lives - 1 then 0 else lives - 1
  }

  /** What one `DeductLife` call announces, given the count before it. */
  function DeductionEvents(lives: int): (r: seq<LivesEvent>)
    ensures 1 <= |r| <= 2
    ensures r[0] == LivesChanged(Deducted(lives))
    ensures |r| == 2 <==> Deducted(lives) == 0
    ensures |r| == 2 ==> r[1] == GameOver
  {
    [LivesChanged(Deducted(lives))] + (if Deducted(lives) <= 0 then [GameOver] else [])
  }

  /** The count after `k` deductions. */
  function LivesAfter(lives: int, k: nat): int {
    if k == 0 then lives else Deducted(LivesAfter(lives, k - 1))
  }

  /** `k` deductions from a non-negative count leave `max(0, lives − k)`. */
  lemma {:induction false} LivesAfterDeductions(lives: int, k: nat)
    requires lives >= 0
    ensures LivesAfter(lives, k) == if lives - k > 0 then lives - k else 0
  {
    if k > 0 {
      LivesAfterDeductions(lives, k - 1);
    }
  }

  /** Everything `k` deductions announce, in order. */
  function EventsAfter(lives: int, k: nat): seq<LivesEvent> {
    if k == 0 then [] else EventsAfter(lives, k - 1) + DeductionEvents(LivesAfter(lives, k - 1))
  }

  function CountGameOvers(es: seq<LivesEvent>): nat {
    if es == [] then 0 else CountGameOvers(es[..|es| - 1]) + (if es[|es| - 1] == GameOver then 1 else 0)
  }

  lemma CountGameOversAppend(a: seq<LivesEvent>, b: seq<LivesEvent>)
    ensures CountGameOvers(a + b) == CountGameOvers(a) + CountGameOvers(b)
  {
    if b != [] {
      assert (a + b)[..|a + b| - 1] == a + b[..|b| - 1];
      CountGameOversAppend(a, b[..|b| - 1]);
    } else {
      assert a + b == a;
    }
  }

  /**
   * Game over is not announced once: from `lives ≥ 1`, the `lives`-th deduction and
   * every later one announce it, so `k` deductions announce it `max(0, k − lives + 1)`
   * times.
   */
  lemma {:induction false} GameOverRepeats(lives: int, k: nat)
    requires lives >= 1
    ensures CountGameOvers(EventsAfter(lives, k)) == if k >= lives then k - lives + 1 else 0
  {
    if k > 0 {
      GameOverRepeats(lives, k - 1);
      var before := LivesAfter(lives, k - 1);
      LivesAfterDeductions(lives, k - 1);
      assert Deducted(before) == 0 <==> k >= lives;
      CountGameOversAppend(EventsAfter(lives, k - 1), DeductionEvents(before));
      DeductionGameOvers(before);
    }
  }

  /** Every deduction announces the new count, so `k` deductions announce `k` counts and the game overs. */
  lemma {:induction false} EventsAfterLength(lives: int, k: nat)
    ensures |EventsAfter(lives, k)| == k + CountGameOvers(EventsAfter(lives, k))
  {
    if k > 0 {
      EventsAfterLength(lives, k - 1);
      var before := LivesAfter(lives, k - 1);
      CountGameOversAppend(EventsAfter(lives, k - 1), DeductionEvents(before));
      DeductionGameOvers(before);
    }
  }

  /** One deduction announces game over once if it leaves zero lives, else not at all. */
  lemma DeductionGameOvers(lives: int)
    ensures CountGameOvers(DeductionEvents(lives)) == if Deducted(lives) == 0 then 1 else 0
  {
    var d := DeductionEvents(lives);
    assert CountGameOvers([d[0]]) == 0;
    if |d| == 2 {
      assert d == [d[0]] + [d[1]];
      CountGameOversAppend([d[0]], [d[1]]);
    } else {
      assert d == [d[0]];
    }
  }

  class LivesStatics {
    var instance: LivesCounter?

    constructor ()
      ensures instance == null
    {
      instance := null;
    }
  }

  class LivesCounter {
    const statics: LivesStatics
    /** The serialized `startLives`. */
    const startLives: int
    var currentLives: int
    /** Whether `Destroy(gameObject)` was requested. */
    var destroyed: bool
    var events: seq<LivesEvent>

    /** Before `Awake` the count is the field default, 0. */
    constructor (statics: LivesStatics, startLives: int)
      ensures this.statics == statics && this.startLives == startLives
      ensures currentLives == 0 && !destroyed && events == []
    {
      this.statics := statics;
      this.startLives := startLives;
      currentLives := 0;
      destroyed := false;
      events := [];
    }

    /**
     * `Awake`: a later instance is destroyed and leaves `Instance` and its count alone;
     * otherwise this instance becomes `Instance` and starts at `startLives`.
     */
    method Awake()
      modifies this`currentLives, this`destroyed, statics`instance
      ensures old(statics.instance) != null && old(statics.instance) != this ==>
                && destroyed && statics.instance == old(statics.instance)
                && currentLives == old(currentLives)
                && statics.instance.currentLives == old(statics.instance.currentLives)
      ensures old(statics.instance) == null || old(statics.instance) == this ==>
                statics.instance == this && currentLives == startLives && destroyed == old(destroyed)
    {
      if statics.instance != null && statics.instance != this {
        destroyed := true;
        return;
      }
      statics.instance := this;
      currentLives := startLives;
    }

    /** `DeductLife`: one life fewer (never below 0), then the announcements. */
    method DeductLife()
      modifies this`currentLives, this`events
      ensures currentLives == Deducted(old(currentLives)) && currentLives >= 0
      ensures events == old(events) + DeductionEvents(old(currentLives))
    {
      currentLives := if 0 > currentLives - 1 then 0 else currentLives - 1;
      events := events + [LivesChanged(currentLives)];
      if currentLives <= 0 {
        events := events + [GameOver];
      }
    }

    /** `GetLives`: reads the count. */
    function GetLives(): (r: int)
      reads this
      ensures r == currentLives
    {
      currentLives
    }
  }
}
