/**
 * `AppleCounter`: the run's apple count. The count is static with a private setter and
 * is only ever incremented, once per apple-collected event delivered while the counter
 * is enabled, and every increment announces the new count.
 *
 * The static `Apples` and the announcements of `OnChanged` live in an `AppleStatics`
 * object. Whether the counter's handler is on the apple-collected event is the flag
 * `subscribed`.
 */
module Apples {

  /**
   * The announcements `1, 2, …, n` of `n` increments from zero: they rise by exactly
   * one each time, so the count never decreases, and the last one is the count.
   */
  function CountsUpTo(n: nat): (r: seq<int>)
    ensures |r| == n
    ensures forall k :: 0 <= k < n ==> r[k] == k + 1
    ensures forall i, j :: 0 <= i <= j < n ==> r[j] - r[i] == j - i
    ensures n > 0 ==> r[n - 1] == n
  {
    seq(n, k requires 0 <= k < n => k + 1)
  }

  class AppleStatics {
    /** The static `Apples`. */
    var apples: int
    /** Every value `OnChanged` was invoked with, oldest first. */
    var changes: seq<int>

    /** The count and the announcements agree: `apples` increments from 0 announced `1 … apples`. */
    predicate Valid()
      reads this
    {
      apples >= 0 && changes == CountsUpTo(apples)
    }

    /** A static int starts at 0, with nothing announced. */
    constructor ()
      ensures Valid() && apples == 0 && changes == []
    {
      apples := 0;
      changes := [];
    }

    /** `AddApple`: one more apple, then `OnChanged` with the new count. */
    method AddApple()
      requires Valid()
      modifies this
      ensures Valid()
      ensures apples == old(apples) + 1
      ensures changes == old(changes) + [apples]
    {
      apples := apples + 1;
      changes := changes + [apples];
    }
  }

  class AppleCounter {
    const statics: AppleStatics
    /** Whether `AddApple` is on `EventManager.OnAppleCollected`. */
    var subscribed: bool

    constructor (statics: AppleStatics)
      ensures this.statics == statics && !subscribed
    {
      this.statics := statics;
      subscribed := false;
    }

    /** `OnEnable`: subscribe to apple-collected events. */
    method OnEnable()
      modifies this`subscribed
      ensures subscribed
    {
      subscribed := true;
    }

    /** `OnDisable`: unsubscribe. */
    method OnDisable()
      modifies this`subscribed
      ensures !subscribed
    {
      subscribed := false;
    }

    /**
     * An apple-collected event: a subscribed counter adds one apple and announces it; a
     * disabled one leaves the count and the announcements alone.
     */
    method OnAppleCollected()
      requires statics.Valid()
      modifies statics
      ensures statics.Valid()
      ensures subscribed ==> statics.apples == old(statics.apples) + 1
                             && statics.changes == old(statics.changes) + [statics.apples]
      ensures !subscribed ==> statics.apples == old(statics.apples) && statics.changes == old(statics.changes)
    {
      if subscribed {
        statics.AddApple();
      }
    }
  }
}
