/** The reconnect delay: the doubling the driver performs, its closed form, and which delays can be doubled. */
module Backoff {

  import opened Prelude

  function Min(a: int, b: int): int { if a <= b then a else b }

  /** `reconnect_delay_ms_` after one more failure or disconnect. */
  function NextDelay(delay: int, max: int): int { Min(delay * 2, max) }

  /** The delay after `k` failures or disconnects since the last reset. */
  function DelayAfter(initial: int, max: int, k: nat): int {
    if k == 0 then initial else NextDelay(DelayAfter(initial, max, k - 1), max)
  }

  function Pow2(k: nat): nat { if k == 0 then 1 else 2 * Pow2(k - 1) }

  lemma {:induction false} DelayClosedForm(initial: int, max: int, k: nat)
    requires 0 <= initial <= max
    ensures DelayAfter(initial, max, k) == Min(initial * Pow2(k), max)
  {
    if k > 0 {
      DelayClosedForm(initial, max, k - 1);
      var p := Pow2(k - 1);
      assert initial * Pow2(k) == 2 * (initial * p) by { Regroup(initial, p); }
    }
  }

  lemma Regroup(a: int, p: int)
    ensures a * (2 * p) == 2 * (a * p)
  {
  }

  lemma {:induction false} DelayStaysBetween(initial: int, max: int, k: nat)
    requires 0 <= initial <= max
    ensures initial <= DelayAfter(initial, max, k) <= max
  {
    if k > 0 { DelayStaysBetween(initial, max, k - 1); }
  }

  // ---- which delays can be doubled for ever ----

  predicate FitsInt32(x: int) { -TWO_TO_THE_31 <= x < TWO_TO_THE_31 }

  /** Doubling fits a signed 32-bit integer however often it is repeated. */
  ghost predicate DoublingsFit(initial: int, max: int) {
    forall k: nat :: FitsInt32(DelayAfter(initial, max, k) * 2)
  }

  /** Neither delay is negative, and unless there is no delay at all both are below 2^30. */
  predicate DoublingGuard(initial: int, max: int) {
    0 <= initial && 0 <= max && (initial == 0 || (initial < TWO_TO_THE_30 && max < TWO_TO_THE_30))
  }

  lemma {:induction false} GuardedStaysSmall(initial: int, max: int, k: nat)
    requires DoublingGuard(initial, max)
    ensures 0 <= DelayAfter(initial, max, k) < TWO_TO_THE_30
  {
    if k > 0 {
      GuardedStaysSmall(initial, max, k - 1);
      if initial == 0 { ZeroStaysZero(max, k); }
    }
  }

  lemma {:induction false} ZeroStaysZero(max: int, k: nat)
    requires 0 <= max
    ensures DelayAfter(0, max, k) == 0
  {
    if k > 0 { ZeroStaysZero(max, k - 1); }
  }

  /** A positive delay doubles up to 2^30 when the cap lets it. */
  lemma {:induction false} ReachesTheLimit(initial: int, max: int, j: nat) returns (k: nat)
    requires 0 < DelayAfter(initial, max, j) && TWO_TO_THE_30 <= max
    ensures DelayAfter(initial, max, k) >= TWO_TO_THE_30
    decreases TWO_TO_THE_30 - DelayAfter(initial, max, j)
  {
    if DelayAfter(initial, max, j) >= TWO_TO_THE_30 {
      k := j;
    } else {
      k := ReachesTheLimit(initial, max, j + 1);
    }
  }

  /** A negative one doubles without end. */
  lemma {:induction false} FallsBelow(initial: int, max: int, j: nat) returns (k: nat)
    requires DelayAfter(initial, max, j) < 0
    ensures DelayAfter(initial, max, k) < -TWO_TO_THE_30
    decreases TWO_TO_THE_30 + DelayAfter(initial, max, j)
  {
    if DelayAfter(initial, max, j) < -TWO_TO_THE_30 {
      k := j;
    } else {
      k := FallsBelow(initial, max, j + 1);
    }
  }

  /** No doubling overflows exactly under that guard, whatever the two numbers. */
  lemma DoublingsFitIff(initial: int, max: int)
    ensures DoublingsFit(initial, max) <==> DoublingGuard(initial, max)
  {
    if DoublingGuard(initial, max) {
      forall k: nat ensures FitsInt32(DelayAfter(initial, max, k) * 2) { GuardedStaysSmall(initial, max, k); }
    } else {
      var k := SomeDoublingOverflows(initial, max);
      assert !FitsInt32(DelayAfter(initial, max, k) * 2);
    }
  }

  lemma SomeDoublingOverflows(initial: int, max: int) returns (k: nat)
    requires !DoublingGuard(initial, max)
    ensures !FitsInt32(DelayAfter(initial, max, k) * 2)
  {
    if initial < 0 {
      k := FallsBelow(initial, max, 0);
    } else if max < 0 {
      k := FallsBelow(initial, max, 1);
    } else if initial >= TWO_TO_THE_30 {
      k := 0;
    } else {
      k := ReachesTheLimit(initial, max, 0);
    }
  }
}
