/**
 The exponential backoff of internal/collector/pool.go and internal/collector/router.go, in int64
 nanoseconds: wait `delay`, then delay = min(delay*2, max).
 */
module Backoff {
  import opened Int64

  const TWO_62 := 0x4000_0000_0000_0000
  const SECOND := 1_000_000_000

  /** RouterConfig.Defaults (internal/domain/config.go) for the two intervals. */
  function DefaultInterval(d: int): (r: int)
    ensures d > 0 ==> r == d
    ensures d <= 0 ==> r == 5_000_000_000
  {
    if d <= 0 then 5 * SECOND else d
  }

  function DefaultMax(d: int): (r: int)
    ensures d > 0 ==> r == d
    ensures d <= 0 ==> r == 60_000_000_000
  {
    if d <= 0 then 60 * SECOND else d
  }

  function Doubled(delay: int, max: int): int {
    Min(Wrap(delay * 2), max)
  }

  /** The delay before retry k when the first is d. */
  function Delay(d: int, max: int, k: nat): int {
    if k == 0 then d else Doubled(Delay(d, max, k - 1), max)
  }

  /** d * 2^k. */
  function Scaled(d: int, k: nat): int {
    if k == 0 then d else 2 * Scaled(d, k - 1)
  }

  /** What the schedule is meant to be: d, then min(d * 2^k, max). */
  function Schedule(d: int, max: int, k: nat): int {
    if k == 0 then d else Min(Scaled(d, k), max)
  }

  lemma {:induction false} ScaledGrows(d: int, k: nat)
    requires 1 <= d
    ensures Scaled(d, k) >= d + k
  {
    if k > 0 {
      ScaledGrows(d, k - 1);
    }
  }

  lemma {:induction false} DelayIsSchedule(d: int, max: int, k: nat)
    requires 1 <= d < TWO_62 && 1 <= max < TWO_62
    ensures Delay(d, max, k) == Schedule(d, max, k)
    ensures 1 <= Delay(d, max, k) <= if d <= max then max else d
  {
    ScaledGrows(d, k);
    if k > 0 {
      DelayIsSchedule(d, max, k - 1);
    }
  }

  /** The doubling that first reaches a bound. */
  lemma GrowsPast(d: int, bound: int) returns (k: nat)
    requires 1 <= d < bound
    ensures k >= 1 && Scaled(d, k - 1) < bound <= Scaled(d, k)
  {
    k := 1;
    while Scaled(d, k) < bound
      invariant k >= 1 && Scaled(d, k - 1) < bound && Scaled(d, k) >= d
      decreases bound - Scaled(d, k)
    {
      assert Scaled(d, k + 1) == 2 * Scaled(d, k);
      k := k + 1;
    }
  }

  /**
   The waits are d, then min(d*2^k, max), for every k, exactly when both intervals are below 2^62 ns;
   otherwise some doubling wraps int64.
   */
  lemma ScheduleHoldsIffBelow2To62(d: int, max: int)
    requires 1 <= d <= MAX && 1 <= max <= MAX
    ensures (forall k: nat :: Delay(d, max, k) == Schedule(d, max, k)) <==> d < TWO_62 && max < TWO_62
  {
    if d < TWO_62 && max < TWO_62 {
      forall k: nat ensures Delay(d, max, k) == Schedule(d, max, k) {
        DelayIsSchedule(d, max, k);
      }
    } else {
      var k := WrapsAt(d, max);
    }
  }

  lemma DoublingWraps(x: int, max: int)
    requires TWO_62 <= x <= MAX
    ensures Doubled(x, max) < 0
  {
    assert x * 2 % TWO_64 == x * 2;
  }

  /** The retry at which an interval of 2^62 or more shows. */
  lemma WrapsAt(d: int, max: int) returns (k: nat)
    requires 1 <= d <= MAX && 1 <= max <= MAX && (d >= TWO_62 || max >= TWO_62)
    ensures Delay(d, max, k) != Schedule(d, max, k)
  {
    var j: nat := 0;
    if d < TWO_62 {
      j := GrowsPast(d, TWO_62);
      assert Scaled(d, j) == 2 * Scaled(d, j - 1);
    }
    assert TWO_62 <= Schedule(d, max, j) <= MAX;
    if Delay(d, max, j) != Schedule(d, max, j) {
      return j;
    }
    DoublingWraps(Delay(d, max, j), max);
    ScaledGrows(d, j + 1);
    assert Delay(d, max, j + 1) == Doubled(Delay(d, max, j), max);
    k := j + 1;
  }

  /**
   Each wait doubles the one before it, up to the cap. The waits never shrink when the first is at most the cap,
   and never exceed the larger of the two.
   */
  lemma {:induction false} DelaysGrowToTheCap(d: int, max: int, k: nat)
    requires 1 <= d < TWO_62 && 1 <= max < TWO_62
    ensures d <= max ==> Delay(d, max, k) <= Delay(d, max, k + 1) <= max
    ensures Delay(d, max, k) <= if d <= max then max else d
    ensures Delay(d, max, 0) == d
    ensures Delay(d, max, k + 1) == if 2 * Delay(d, max, k) <= max then 2 * Delay(d, max, k) else max
  {
    DelayIsSchedule(d, max, k);
    DelayIsSchedule(d, max, k + 1);
    assert Delay(d, max, k + 1) == Doubled(Delay(d, max, k), max);
  }

  /** waits are the backoff's delays from d on. */
  ghost predicate AreDelays(waits: seq<int>, d: int, max: int) {
    forall k | 0 <= k < |waits| :: waits[k] == Delay(d, max, k)
  }

  lemma OneMoreDelay(waits: seq<int>, d: int, max: int, wait: int)
    requires AreDelays(waits, d, max) && wait == Delay(d, max, |waits|)
    ensures AreDelays(waits + [wait], d, max)
    ensures Doubled(wait, max) == Delay(d, max, |waits + [wait]|)
  {
  }
}
