/** The sender's retry delay, computed in 64-bit nanoseconds. */
module SendBackoff {
  import opened Numbers

  const TWO_64: int := 0x1_0000_0000_0000_0000

  function Pow2(s: nat): (r: nat)
    ensures r >= 1
  {
    if s == 0 then 1 else 2 * Pow2(s - 1)
  }

  /** The signed 64-bit value of `x`. */
  function Wrap64(x: int): (r: int)
    ensures -TWO_63 <= r < TWO_63 && (r - x) % TWO_64 == 0
  {
    (x + TWO_63) % TWO_64 - TWO_63
  }

  /** How far a step shifts the smallest delay. */
  function Shift(step: int): nat {
    Min(Max(step - 1, 0), 20)
  }

  /** The delay before jitter that is meant: doubled at each step, at most `max`. */
  function Meant(min: nat, max: nat, step: int): int {
    Min(min * Pow2(Shift(step)), max) * SECOND
  }

  /** The settings a configuration may have, in seconds. */
  predicate Allowed(min: nat, max: nat) {
    1 <= min <= max <= 86400
  }

  /** The one setting and shift whose wrapped value is positive and below the cap. */
  predicate SlipsThrough(min: nat, step: int) {
    min == 70369 && Shift(step) == 18
  }

  /** The delay before jitter as computed. */
  function Computed(min: nat, max: nat, step: int): int {
    var d := Wrap64(min * SECOND * Pow2(Shift(step)));
    if d > max * SECOND || d <= 0 then max * SECOND else d
  }

  lemma Powers()
    ensures Pow2(0) == 1 && Pow2(1) == 2 && Pow2(2) == 4 && Pow2(3) == 8 && Pow2(4) == 16 && Pow2(5) == 32 && Pow2(6) == 64
    ensures Pow2(7) == 128 && Pow2(8) == 256 && Pow2(9) == 512 && Pow2(10) == 1024 && Pow2(11) == 2048 && Pow2(12) == 4096
    ensures Pow2(13) == 8192 && Pow2(14) == 16384 && Pow2(15) == 32768 && Pow2(16) == 65536 && Pow2(17) == 131072
    ensures Pow2(18) == 262144 && Pow2(19) == 524288 && Pow2(20) == 1048576
  {}

  lemma ShiftBounds(step: int)
    ensures 1 <= Pow2(Shift(step)) <= 1048576
  {
    Powers();
    GrowingPowers(Shift(step), 20);
  }

  lemma {:induction false} GrowingPowers(a: nat, b: nat)
    requires a <= b
    ensures Pow2(a) <= Pow2(b)
  {
    if a < b {
      GrowingPowers(a, b - 1);
    }
  }

  /** While the product fits, nothing is wrong. */
  lemma FitsIsMeant(min: nat, max: nat, step: int)
    requires Allowed(min, max) && min * SECOND * Pow2(Shift(step)) < TWO_63
    ensures Computed(min, max, step) == Meant(min, max, step)
  {
    Rearrange(min, Pow2(Shift(step)));
    Unwrapped(min * Pow2(Shift(step)));
  }

  lemma Rearrange(min: nat, p: nat)
    requires min >= 1 && p >= 1
    ensures min * SECOND * p == min * p * SECOND && min * p >= 1
  {
    Product(1, min, 1, p);
  }

  lemma Unwrapped(m: nat)
    requires m * SECOND < TWO_63
    ensures Wrap64(m * SECOND) == m * SECOND
  {}

  /** A wrapped value is caught (negative, zero or above the cap) except in one case. */
  lemma WrapIsCaught(min: nat, max: nat, step: int)
    requires Allowed(min, max) && min * SECOND * Pow2(Shift(step)) >= TWO_63
    ensures Computed(min, max, step) == (if SlipsThrough(min, step) then 67_062_290_448_384 else max * SECOND)
  {
    Powers();
    var s := Shift(step);
    assert s <= 20;
    if s == 20 { WrapAt20(min, max); }
    else if s == 19 { WrapAt19(min, max); }
    else if s == 18 { WrapAt18(min, max); }
    else if s == 17 { WrapAt17(min, max); }
    else {
      GrowingPowers(s, 16);
      Product(min * SECOND, 86400 * SECOND, Pow2(s), 65536);
    }
  }

  lemma Product(a: nat, b: nat, c: nat, d: nat)
    requires a <= b && c <= d
    ensures a * c <= b * d
  {
    assert a * c <= b * c <= b * d;
  }

  /** A value between two multiples of 2^64 wraps to its distance from the lower one, unless that
      is negative. */
  lemma WrapBetween(v: int, k: nat)
    requires k * TWO_64 <= v < (k + 1) * TWO_64
    ensures Wrap64(v) == v - k * TWO_64 || Wrap64(v) <= 0
  {}

  lemma WrapAt20(min: nat, max: nat)
    requires Allowed(min, max) && min * SECOND * 1048576 >= TWO_63
    ensures Wrap64(min * SECOND * 1048576) > max * SECOND || Wrap64(min * SECOND * 1048576) <= 0
  {
    hide Wrap64;
    WrapBetween(min * SECOND * 1048576,
                if min <= 17592 then 0 else if min <= 35184 then 1 else if min <= 52776 then 2 else if min <= 70368 then 3 else 4);
  }

  lemma WrapAt19(min: nat, max: nat)
    requires Allowed(min, max) && min * SECOND * 524288 >= TWO_63
    ensures Wrap64(min * SECOND * 524288) > max * SECOND || Wrap64(min * SECOND * 524288) <= 0
  {
    hide Wrap64;
    WrapBetween(min * SECOND * 524288, if min <= 35184 then 0 else if min <= 70368 then 1 else 2);
  }

  lemma WrapAt18(min: nat, max: nat)
    requires Allowed(min, max) && min * SECOND * 262144 >= TWO_63
    ensures var w := Wrap64(min * SECOND * 262144);
      if min == 70369 then w == 67_062_290_448_384 <= max * SECOND else w > max * SECOND || w <= 0
  {}

  lemma WrapAt17(min: nat, max: nat)
    requires Allowed(min, max) && min * SECOND * 131072 >= TWO_63
    ensures Wrap64(min * SECOND * 131072) > max * SECOND || Wrap64(min * SECOND * 131072) <= 0
  {}

  /** When the product overflows, the cap is what is meant. */
  lemma OverflowMeansCap(min: nat, max: nat, step: int)
    requires Allowed(min, max) && min * SECOND * Pow2(Shift(step)) >= TWO_63
    ensures Meant(min, max, step) == max * SECOND
  {
    Rearrange(min, Pow2(Shift(step)));
  }

  /** For every allowed setting and every step the delay is the one that is meant, but for one
      setting at one step: there the shift wraps to a positive value below the cap, shorter even
      than the smallest delay. */
  lemma DelayIsMeant(min: nat, max: nat, step: int)
    requires Allowed(min, max)
    ensures Computed(min, max, step) == Meant(min, max, step) <==> !SlipsThrough(min, step)
    ensures SlipsThrough(min, step) ==> Computed(min, max, step) == 67_062_290_448_384 < min * SECOND
  {
    Powers();
    if min * SECOND * Pow2(Shift(step)) < TWO_63 {
      FitsIsMeant(min, max, step);
    } else {
      WrapIsCaught(min, max, step);
      OverflowMeansCap(min, max, step);
    }
  }

  /** Up to a smallest delay of 8796 seconds the shift never overflows; at 8797 it does. */
  lemma NoOverflowTo8796(min: nat)
    ensures (forall step: int :: 0 <= min * SECOND * Pow2(Shift(step)) < TWO_63) <==> min <= 8796
  {
    Powers();
    if min <= 8796 {
      forall step: int ensures 0 <= min * SECOND * Pow2(Shift(step)) < TWO_63 {
        ShiftBounds(step);
        Product(min * SECOND, 8796 * SECOND, Pow2(Shift(step)), 1048576);
      }
    } else {
      assert Shift(21) == 20;
      Product(8797 * SECOND, min * SECOND, 1048576, Pow2(Shift(21)));
    }
  }

  /** What is meant never shrinks from one step to a later one, and stays between the settings. */
  lemma MeantGrows(min: nat, max: nat, step: int, later: int)
    requires Allowed(min, max) && step <= later
    ensures min * SECOND <= Meant(min, max, step) <= Meant(min, max, later) <= max * SECOND
  {
    GrowingPowers(Shift(step), Shift(later));
    Product(min, min, Pow2(Shift(step)), Pow2(Shift(later)));
    Product(min, min, 1, Pow2(Shift(step)));
  }

  function Stretched(d: real, jitter: real): real {
    d * (1.0 + jitter)
  }

  function Jittered(d: int, jitter: real): int {
    Stretched(d as real, jitter).Floor
  }

  /** Jitter changes a delay by its share of it, the fraction dropped: by a fifth at most. */
  lemma JitterMeans(d: nat, jitter: real)
    requires -0.2 <= jitter <= 0.2
    ensures Stretched(d as real, jitter) == d as real + d as real * jitter
    ensures Jittered(d, jitter) as real <= Stretched(d as real, jitter) < Jittered(d, jitter) as real + 1.0
    ensures d * 4 / 5 <= Jittered(d, jitter) <= d * 6 / 5
  {
    hide Stretched;
    Fifths(d as real, jitter);
    WholeFifths(d);
    FloorBetween(d as real * 0.8, Stretched(d as real, jitter), d as real * 1.2, d * 4 / 5, d * 6 / 5);
  }

  lemma WholeFifths(d: nat)
    ensures (d * 4 / 5) as real <= d as real * 0.8 && d as real * 1.2 < (d * 6 / 5) as real + 1.0
  {
    var q, p := d * 4 / 5, d * 6 / 5;
    assert 5 * q <= 4 * d && 6 * d < 5 * (p + 1);
    assert (5 * q) as real <= (4 * d) as real && (6 * d) as real < (5 * (p + 1)) as real;
  }

  lemma Fifths(d: real, jitter: real)
    requires d >= 0.0 && -0.2 <= jitter <= 0.2
    ensures Stretched(d, jitter) == d + d * jitter
    ensures d * 0.8 <= Stretched(d, jitter) <= d * 1.2
  {}

  lemma FloorBetween(low: real, x: real, high: real, m: int, n: int)
    requires low <= x <= high && m as real <= low && high < n as real + 1.0
    ensures x.Floor as real <= x < x.Floor as real + 1.0 && m <= x.Floor <= n
  {}

  lemma JitterIsPositive(d: int, jitter: real)
    requires d >= SECOND && -0.2 <= jitter
    ensures Jittered(d, jitter) > 0
  {
    assert d as real * (1.0 + jitter) >= d as real * 0.8;
  }

  /** A delay this step may get, whatever the jitter. */
  ghost predicate IsDelay(min: nat, max: nat, step: int, retryAfter: int, d: int) {
    exists jitter: real :: -0.2 <= jitter <= 0.2 && d == Max(retryAfter, Jittered(Computed(min, max, step), jitter))
  }

  lemma DelayBy(min: nat, max: nat, step: int, retryAfter: int, d: int, jitter: real)
    requires -0.2 <= jitter <= 0.2 && d == Max(retryAfter, Jittered(Computed(min, max, step), jitter))
    ensures IsDelay(min, max, step, retryAfter, d)
  {
    hide Jittered, Computed;
  }

  /** The shortest of them, when the answer asks for none. */
  function Shortest(min: nat, max: nat, step: int): int {
    Jittered(Computed(min, max, step), -0.2)
  }

  lemma ComputedIsPositive(min: nat, max: nat, step: int)
    requires Allowed(min, max)
    ensures Computed(min, max, step) >= SECOND
  {
    hide Meant, Computed;
    DelayIsMeant(min, max, step);
    MeantGrows(min, max, step, step);
  }

  lemma LessJitterIsShorter(d: int, a: real, b: real)
    requires d >= 0 && a <= b
    ensures Jittered(d, a) <= Jittered(d, b)
  {
    assert d as real * (1.0 + a) <= d as real * (1.0 + b);
  }

  /** Whether a delay of this step can end before a time: exactly when the shortest one does. */
  lemma EndsBefore(min: nat, max: nat, step: int, now: int, end: int)
    requires Allowed(min, max)
    ensures (exists d :: IsDelay(min, max, step, 0, d) && now + d < end) <==> now + Shortest(min, max, step) < end
    ensures Shortest(min, max, step) > 0
  {
    hide Computed;
    var c, short := Computed(min, max, step), Shortest(min, max, step);
    ComputedIsPositive(min, max, step);
    JitterIsPositive(c, -0.2);
    assert IsDelay(min, max, step, 0, short) by { assert short == Max(0, Jittered(c, -0.2)); }
    forall d | IsDelay(min, max, step, 0, d) ensures d >= short {
      var jitter: real :| -0.2 <= jitter <= 0.2 && d == Max(0, Jittered(c, jitter));
      LessJitterIsShorter(c, -0.2, jitter);
    }
  }

  /** The delay after an answer: jittered by up to a fifth either way, and at least what the
      journal asked for. */
  method Backoff(min: nat, max: nat, step: int, retryAfter: int, jitter: real) returns (d: int)
    requires Allowed(min, max) && -0.2 <= jitter <= 0.2
    ensures d >= retryAfter && IsDelay(min, max, step, retryAfter, d)
    ensures d == Max(retryAfter, Jittered(if SlipsThrough(min, step) then 67_062_290_448_384 else Meant(min, max, step), jitter))
    ensures d > 0
  {
    hide Meant, Shift, Pow2, Wrap64, Jittered, IsDelay, SlipsThrough;
    DelayIsMeant(min, max, step);
    ComputedIsPositive(min, max, step);
    d := Wrap64(min * SECOND * Pow2(Shift(step)));
    if d > max * SECOND || d <= 0 {
      d := max * SECOND;
    }
    assert d == Computed(min, max, step);
    JitterIsPositive(d, jitter);
    d := Jittered(d, jitter);
    if retryAfter > d {
      d := retryAfter;
    }
    DelayBy(min, max, step, retryAfter, d, jitter);
  }
}
