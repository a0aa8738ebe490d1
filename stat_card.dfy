/**
 * The dashboard stat card and its count-up animation: a numeric value is
 * approached in sixty equal increments, one per interval firing, showing the
 * whole part of the running total until it reaches the value.
 */
module StatCard {
  import opened JsRuntime

  /** `value: number | string` */
  datatype StatValue = NumberValue(n: real) | TextValue(s: string)

  /** The number of increments, `steps`. */
  const Steps: nat := 60

  /** The running total after `k` firings: `k` increments of `value / 60`. */
  function Accumulated(value: real, k: nat): real {
    k as real * (value / Steps as real)
  }

  /**
   * A positive value is reached at exactly the sixtieth firing: the running
   * total stays below it for fewer firings and reaches it at sixty.
   */
  lemma {:induction false} PositiveReachedAtSixty(value: real, k: nat)
    requires value > 0.0
    ensures Accumulated(value, k) >= value <==> k >= Steps
  {
    var inc := value / 60.0;
    assert inc > 0.0;
    assert Accumulated(value, k) == k as real * inc;
    assert 60.0 * inc == value;
    if k >= 60 {
      assert (k as real - 60.0) * inc >= 0.0;
    } else {
      assert (60.0 - k as real) * inc > 0.0;
    }
  }

  /** A value of 0 or below is reached at the first firing. */
  lemma NonPositiveReachedAtOnce(value: real)
    requires value <= 0.0
    ensures Accumulated(value, 1) >= value
  {
  }

  /** The card's state: the shown number, and the running interval if one is set. */
  class Card {
    var displayValue: real
    /** `current`, `increment` and the `value` of the interval being run. */
    var current: real
    var increment: real
    var target: real
    var ticking: bool
    /** The number of firings of the running interval. */
    ghost var ticks: nat

    /**
     * While the interval runs, the running total is its firings' increments,
     * and after a firing that did not stop it the whole part of the total is
     * shown and lies below the value.
     */
    ghost predicate Valid()
      reads this
    {
      ticking ==>
        && increment == target / Steps as real
        && current == Accumulated(target, ticks)
        && (ticks > 0 ==> current < target && displayValue == Floor(current) as real)
    }

    constructor ()
      ensures Valid() && displayValue == 0.0 && !ticking
    {
      displayValue, current, increment, target, ticking := 0.0, 0.0, 0.0, 0.0, false;
      ticks := 0;
    }

    /**
     * What the card renders for `value`: a number is rendered as the shown
     * number `displayValue`, a string as the string itself.
     */
    function Rendered(value: StatValue): (v: StatValue)
      reads this`displayValue
      ensures v.TextValue? <==> value.TextValue?
      ensures v.TextValue? ==> v == value
    {
      if value.NumberValue? then NumberValue(displayValue) else value
    }

    /**
     * The effect run when `value` or `animated` changes: an animated number
     * starts a fresh interval (the shown number is left as it was until the
     * first firing); otherwise `displayValue` becomes the number at once, or
     * 0 for a string, and the card renders exactly the value it was given.
     */
    method Start(value: StatValue, animated: bool)
      modifies this
      ensures Valid()
      ensures animated && value.NumberValue? ==>
                && ticking && target == value.n && current == 0.0 && ticks == 0
                && displayValue == old(displayValue)
      ensures !(animated && value.NumberValue?) ==>
                && !ticking
                && displayValue == (if value.NumberValue? then value.n else 0.0)
                && Rendered(value) == value
    {
      if animated && value.NumberValue? {
        target := value.n;
        increment := value.n / Steps as real;
        current := 0.0;
        ticks := 0;
        ticking := true;
      } else {
        displayValue := if value.NumberValue? then value.n else 0.0;
        ticking := false;
      }
    }

    /**
     * One firing: the total grows by one increment; on reaching the value
     * the value itself is shown and the interval cleared, otherwise the
     * whole part of the total is shown.
     */
    method Tick()
      requires Valid() && ticking
      modifies this`current, this`displayValue, this`ticking, this`ticks
      ensures Valid()
      ensures current == old(current) + increment && ticks == old(ticks) + 1
      ensures current >= target ==> displayValue == target && !ticking
      ensures current < target ==> displayValue == Floor(current) as real && ticking
    {
      current := current + increment;
      ticks := ticks + 1;
      if current >= target {
        displayValue := target;
        ticking := false;
      } else {
        displayValue := Floor(current) as real;
      }
    }

    /**
     * Running a fresh interval for a positive value to its end: sixty
     * firings, each but the last showing a number below the value, and the
     * value itself at the end.
     */
    method RunToEnd()
      requires Valid() && ticking && ticks == 0 && target > 0.0
      modifies this`current, this`displayValue, this`ticking, this`ticks
      ensures !ticking && displayValue == target && ticks == Steps
    {
      while ticking
        invariant Valid() && target > 0.0 && ticks <= Steps
        invariant ticking ==> current == Accumulated(target, ticks)
        invariant !ticking ==> displayValue == target && ticks == Steps
        decreases Steps - ticks
      {
        PositiveReachedAtSixty(target, ticks + 1);
        Tick();
      }
    }
  }
}
