/**
 * The arithmetic of the refinement step: the gap threshold divided by its
 * scale and floored at its minimum, and the k-point spacing divided by its
 * scale with no floor at all.
 */
module Stepping {

  /** `max(cgt / sgt, mgt)`: the next gap threshold. */
  function NextThreshold(current: real, scale: real, min: real): (t: real)
    requires scale != 0.0
    ensures t >= min
    ensures t == current / scale || t == min
    ensures t == current / scale <==> current / scale >= min
  {
    if current / scale >= min then current / scale else min
  }

  lemma DivideByAtLeastOne(x: real, s: real)
    requires x >= 0.0 && s >= 1.0
    ensures x / s <= x
  {
    assert x / s * s == x;
    assert x / s >= 0.0;
    assert x / s * s >= x / s * 1.0;
  }

  /**
   * With a scale of at least 1 and a threshold already at or above its
   * minimum, the threshold never grows; it stays at or above the minimum.
   */
  lemma ThresholdNonIncreasing(current: real, scale: real, min: real)
    requires scale >= 1.0 && min >= 0.0 && current >= min
    ensures min <= NextThreshold(current, scale, min) <= current
  {
    DivideByAtLeastOne(current, scale);
  }

  /** The threshold after `n` steps. */
  function ThresholdAfter(current: real, scale: real, min: real, n: nat): (t: real)
    requires scale != 0.0
    ensures n > 0 ==> t >= min
    ensures n == 0 ==> t == current
  {
    if n == 0 then current else NextThreshold(ThresholdAfter(current, scale, min, n - 1), scale, min)
  }

  /** Once at the minimum, the threshold stays there when the scale is at least 1. */
  lemma {:induction false} ThresholdSettles(current: real, scale: real, min: real, n: nat)
    requires scale >= 1.0 && min >= 0.0 && current >= min
    ensures min <= ThresholdAfter(current, scale, min, n) <= current
  {
    if n > 0 {
      ThresholdSettles(current, scale, min, n - 1);
      ThresholdNonIncreasing(ThresholdAfter(current, scale, min, n - 1), scale, min);
    }
  }

  /**
   * `current_kpoints_distance /= scale_kpoints_distance`, applied `n` times.
   * A positive scale keeps the sign of the spacing.
   */
  function DistanceAfter(d: real, scale: real, n: nat): (r: real)
    requires scale != 0.0
    ensures n == 0 ==> r == d
    ensures scale > 0.0 ==> (r > 0.0 <==> d > 0.0)
  {
    if n == 0 then d else DistanceAfter(d, scale, n - 1) / scale
  }

  /**
   * One step shrinks a positive spacing when the scale exceeds 1 and grows it
   * when the scale lies in (0, 1), as the default 0.05 does.
   */
  lemma DistanceStep(d: real, scale: real)
    requires d > 0.0 && scale > 0.0
    ensures scale > 1.0 ==> d / scale < d
    ensures scale < 1.0 ==> d / scale > d
  {
    var q := d / scale;
    assert q * scale == d;
    DivNonNegative(d, scale);
    assert q != 0.0;
    if scale > 1.0 {
      MulStrict(q, 1.0, scale);
    } else if scale < 1.0 {
      MulStrict(q, scale, 1.0);
    }
  }

  lemma DivNonNegative(x: real, y: real)
    requires x >= 0.0 && y > 0.0
    ensures x / y >= 0.0
  {
  }

  lemma MulStrict(x: real, y: real, z: real)
    requires x > 0.0 && y < z
    ensures x * y < x * z
  {
  }

  lemma MulCancel(x: real, y: real, c: real)
    requires c > 0.0 && x * c < y * c
    ensures x < y
  {
  }

  lemma MulMonotone(x: real, y: real, z: real)
    requires x >= 0.0 && y <= z
    ensures x * y <= x * z
  {
  }

  /** `1 + n a <= (1 + a)(1 + (n - 1) a)` for `a >= 0`. */
  lemma BernoulliStep(n: nat, a: real)
    requires n >= 1 && a >= 0.0
    ensures 1.0 + (n as real) * a <= (1.0 + a) * (1.0 + ((n - 1) as real) * a)
  {
    var m := (n - 1) as real;
    assert (1.0 + a) * (1.0 + m * a) == 1.0 + (m + 1.0) * a + m * (a * a);
    assert m * (a * a) >= 0.0;
  }

  /**
   * Bernoulli's bound: after `n` divisions by `s >= 1` the spacing times
   * `1 + n (s - 1)` is at most the starting spacing.
   */
  lemma {:induction false} DistanceBound(d: real, s: real, n: nat)
    requires d >= 0.0 && s >= 1.0
    ensures DistanceAfter(d, s, n) >= 0.0
    ensures DistanceAfter(d, s, n) * (1.0 + (n as real) * (s - 1.0)) <= d
  {
    if n > 0 {
      DistanceBound(d, s, n - 1);
      var p := DistanceAfter(d, s, n - 1);
      BoundStep(p, s, n, d);
    }
  }

  /** The inductive step of `DistanceBound`, for one division of `p` by `s`. */
  lemma BoundStep(p: real, s: real, n: nat, d: real)
    requires n >= 1 && p >= 0.0 && s >= 1.0
    requires p * (1.0 + ((n - 1) as real) * (s - 1.0)) <= d
    ensures p / s >= 0.0
    ensures (p / s) * (1.0 + (n as real) * (s - 1.0)) <= d
  {
    var q := p / s;
    var a := s - 1.0;
    assert q * s == p;
    assert q >= 0.0;
    BernoulliStep(n, a);
    MulMonotone(q, 1.0 + (n as real) * a, (1.0 + a) * (1.0 + ((n - 1) as real) * a));
    assert q * ((1.0 + a) * (1.0 + ((n - 1) as real) * a)) == (q * s) * (1.0 + ((n - 1) as real) * a);
  }

  /** With a scale in (0, 1) a positive spacing never drops below its start: the loop cannot end on spacing. */
  lemma {:induction false} DistanceGrows(d: real, s: real, n: nat)
    requires d > 0.0 && 0.0 < s < 1.0
    ensures DistanceAfter(d, s, n) >= d
  {
    if n > 0 {
      DistanceGrows(d, s, n - 1);
      DistanceStep(DistanceAfter(d, s, n - 1), s);
    }
  }

  /** How many steps bring spacing `d` below `min` when `s > 1` and `min > 0`. */
  function StepsToFloor(d: real, s: real, min: real): nat
    requires s > 1.0 && min > 0.0
  {
    if d < min then 0
    else
      DivNonNegative(d, min);
      DivNonNegative(d / min, s - 1.0);
      ((d / min) / (s - 1.0)).Floor + 1
  }

  lemma {:induction false} DistanceNonIncreasing(d: real, s: real, n: nat)
    requires d >= 0.0 && s >= 1.0
    ensures 0.0 <= DistanceAfter(d, s, n) <= d
  {
    if n > 0 {
      DistanceNonIncreasing(d, s, n - 1);
      DivideByAtLeastOne(DistanceAfter(d, s, n - 1), s);
    }
  }

  lemma {:induction false} DistanceStaysNegative(d: real, s: real, n: nat)
    requires d < 0.0 && s > 0.0
    ensures DistanceAfter(d, s, n) < 0.0
  {
    if n > 0 {
      DistanceStaysNegative(d, s, n - 1);
    }
  }

  /**
   * With `s > 1` and `min > 0`, the spacing is below `min` after
   * `StepsToFloor(d, s, min)` steps and after every later step.
   */
  lemma FloorReached(d: real, s: real, min: real, n: nat)
    requires s > 1.0 && min > 0.0
    requires n >= StepsToFloor(d, s, min)
    ensures DistanceAfter(d, s, n) < min
  {
    if d < 0.0 {
      DistanceStaysNegative(d, s, n);
    } else if d < min {
      DistanceNonIncreasing(d, s, n);
    } else {
      var a := s - 1.0;
      var k := (d / min) / a;
      assert (n as real) > k;
      assert k * a == d / min;
      MulMonotone(a, k, n as real);
      assert (n as real) * a >= d / min;
      DistanceBound(d, s, n);
      var x := DistanceAfter(d, s, n);
      var f := 1.0 + (n as real) * a;
      assert f > d / min;
      assert x * f <= d;
      DivBound(x, f, d, min);
    }
  }

  lemma DivBound(x: real, f: real, d: real, min: real)
    requires min > 0.0 && d >= min && x >= 0.0 && f > d / min && x * f <= d
    ensures x < min
  {
    var c := d / min;
    assert c * min == d;
    DivNonNegative(d, min);
    assert c > 0.0;
    if x > 0.0 {
      MulStrict(x, c, f);
      assert x * c < min * c;
      MulCancel(x, min, c);
    }
  }
}
