/** Exponential smoothing of the cursor and parallax signals
    (components/GestureController.tsx): `s += (t - s) * rate`, once per frame. */
module Smoothing {
  import opened Types

  const CursorRate: real := 0.3
  const ParallaxRate: real := 0.05

  /** One smoothing step from `s` toward the target `t`. */
  function Smooth(s: real, t: real, rate: real): real
  {
    s + (t - s) * rate
  }

  /** A step with a rate in [0, 1] lands between the current value and the
      target, and leaves `1 - rate` of the distance to go. */
  lemma SmoothBetween(s: real, t: real, rate: real)
    requires 0.0 <= rate <= 1.0
    ensures Min(s, t) <= Smooth(s, t, rate) <= Max(s, t)
    ensures Abs(t - Smooth(s, t, rate)) == (1.0 - rate) * Abs(t - s)
  {
    var d := t - s;
    ScaledStep(d, rate);
    assert t - Smooth(s, t, rate) == d - d * rate;
  }

  /** The step `d * rate` lies between 0 and `d` and leaves `(1 - rate) * d`. */
  lemma ScaledStep(d: real, rate: real)
    ensures 0.0 <= rate <= 1.0 && d >= 0.0 ==> 0.0 <= d * rate <= d
    ensures 0.0 <= rate <= 1.0 && d <= 0.0 ==> d <= d * rate <= 0.0
    ensures 0.0 <= rate <= 1.0 ==> Abs(d - d * rate) == (1.0 - rate) * Abs(d)
  {
    if 0.0 <= rate <= 1.0 {
      assert d - d * rate == d * (1.0 - rate);
      if d >= 0.0 {
        assert d * (1.0 - rate) >= 0.0;
      } else {
        assert (-d) * (1.0 - rate) >= 0.0;
        assert d * (1.0 - rate) == -((-d) * (1.0 - rate));
        assert (-d) * rate >= 0.0;
      }
    }
  }

  /** The step applied to both coordinates, as the source does for x and y. */
  function SmoothPoint(s: Point, t: Point, rate: real): Point
  {
    Point(Smooth(s.x, t.x, rate), Smooth(s.y, t.y, rate))
  }

  /** `n` frames in a row with the same target. */
  function Iterate(s: real, t: real, rate: real, n: nat): real
  {
    if n == 0 then s else Smooth(Iterate(s, t, rate, n - 1), t, rate)
  }

  /** With a fixed target the remaining gap shrinks geometrically: after
      `n` frames it is `(1 - rate)^n` times the initial gap, sign included. */
  lemma {:induction false} GapAfter(s: real, t: real, rate: real, n: nat)
    ensures t - Iterate(s, t, rate, n) == Pow(1.0 - rate, n) * (t - s)
  {
    if n > 0 {
      GapAfter(s, t, rate, n - 1);
      var prev := Iterate(s, t, rate, n - 1);
      GapStep(prev, t, rate);
      assert Pow(1.0 - rate, n) * (t - s) == (1.0 - rate) * (Pow(1.0 - rate, n - 1) * (t - s));
    }
  }

  lemma GapStep(x: real, t: real, rate: real)
    ensures t - Smooth(x, t, rate) == (1.0 - rate) * (t - x)
  {
  }

  /** The same in absolute terms, for a rate in [0, 1]. */
  lemma DistanceAfter(s: real, t: real, rate: real, n: nat)
    requires 0.0 <= rate <= 1.0
    ensures Abs(t - Iterate(s, t, rate, n)) == Pow(1.0 - rate, n) * Abs(t - s)
  {
    GapAfter(s, t, rate, n);
    PowNonNegative(1.0 - rate, n);
    AbsOfScaled(Pow(1.0 - rate, n), t - s);
  }

  lemma {:induction false} PowNonNegative(q: real, n: nat)
    requires q >= 0.0
    ensures Pow(q, n) >= 0.0
  {
    if n > 0 {
      PowNonNegative(q, n - 1);
      assert q * Pow(q, n - 1) >= 0.0;
    }
  }

  lemma AbsOfScaled(p: real, g: real)
    requires p >= 0.0
    ensures Abs(p * g) == p * Abs(g)
  {
    if g < 0.0 {
      assert p * (-g) >= 0.0;
      assert p * g == -(p * (-g));
    } else {
      assert p * g >= 0.0;
    }
  }

  /** The approach is monotone: a frame never moves the signal farther from
      its target, nor past it. */
  lemma Monotone(s: real, t: real, rate: real, n: nat)
    requires 0.0 <= rate <= 1.0
    ensures Abs(t - Iterate(s, t, rate, n + 1)) <= Abs(t - Iterate(s, t, rate, n))
    ensures s <= t ==> Iterate(s, t, rate, n) <= Iterate(s, t, rate, n + 1) <= t
    ensures t <= s ==> t <= Iterate(s, t, rate, n + 1) <= Iterate(s, t, rate, n)
  {
    StaysOnSide(s, t, rate, n);
    SmoothBetween(Iterate(s, t, rate, n), t, rate);
  }

  lemma {:induction false} StaysOnSide(s: real, t: real, rate: real, n: nat)
    requires 0.0 <= rate <= 1.0
    ensures s <= t ==> s <= Iterate(s, t, rate, n) <= t
    ensures t <= s ==> t <= Iterate(s, t, rate, n) <= s
  {
    if n > 0 {
      StaysOnSide(s, t, rate, n - 1);
      SmoothBetween(Iterate(s, t, rate, n - 1), t, rate);
    }
  }

  /** A Bernoulli-type bound: `(1 - r)^n * (1 + n r) <= 1` for `r` in [0, 1]. */
  lemma {:induction false} PowBound(r: real, n: nat)
    requires 0.0 <= r <= 1.0
    ensures 0.0 <= Pow(1.0 - r, n)
    ensures Pow(1.0 - r, n) * (1.0 + n as real * r) <= 1.0
  {
    if n > 0 {
      PowBound(r, n - 1);
      var p := Pow(1.0 - r, n - 1);
      var m := (n - 1) as real;
      assert (1.0 - r) * (1.0 + m * r + r) == 1.0 + m * r - m * r * r - r * r;
      assert (1.0 - r) * (1.0 + m * r + r) <= 1.0 + m * r;
      calc {
        Pow(1.0 - r, n) * (1.0 + n as real * r);
        p * ((1.0 - r) * (1.0 + m * r + r));
      <= { assert p >= 0.0; }
        p * (1.0 + m * r);
      }
    }
  }

  /** Convergence within a tolerance: once `n * rate * eps >= 1`, the signal
      is within `eps` times its initial distance of the target. */
  lemma WithinTolerance(s: real, t: real, rate: real, eps: real, n: nat)
    requires 0.0 < rate <= 1.0 && eps > 0.0
    requires n as real * rate * eps >= 1.0
    ensures Abs(t - Iterate(s, t, rate, n)) <= eps * Abs(t - s)
  {
    GapAfter(s, t, rate, n);
    CloseEnough(Iterate(s, t, rate, n), s, t, rate, eps, n);
  }

  /** The tolerance bound for any value whose gap is the geometric one. */
  lemma CloseEnough(x: real, s: real, t: real, rate: real, eps: real, n: nat)
    requires 0.0 < rate <= 1.0 && eps > 0.0
    requires n as real * rate * eps >= 1.0
    requires t - x == Pow(1.0 - rate, n) * (t - s)
    ensures Abs(t - x) <= eps * Abs(t - s)
  {
    PowNonNegative(1.0 - rate, n);
    AbsOfScaled(Pow(1.0 - rate, n), t - s);
    ScaledGapBound(s, t, rate, eps, n);
  }

  lemma ScaledGapBound(s: real, t: real, rate: real, eps: real, n: nat)
    requires 0.0 < rate <= 1.0 && eps > 0.0
    requires n as real * rate * eps >= 1.0
    ensures Pow(1.0 - rate, n) * Abs(t - s) <= eps * Abs(t - s)
  {
    PowBound(rate, n);
    assert n as real * rate >= 0.0;
    ToleranceArith(Pow(1.0 - rate, n), n as real * rate, eps, Abs(t - s));
  }

  lemma ToleranceArith(p: real, k: real, eps: real, d: real)
    requires p >= 0.0 && k >= 0.0 && eps > 0.0 && d >= 0.0
    requires p * (1.0 + k) <= 1.0 && k * eps >= 1.0
    ensures p * d <= eps * d
  {
    assert p * k <= 1.0;
    MulMonotone(p * k, 1.0, eps);
    MulAtLeast(p, k * eps);
    assert p * (k * eps) == (p * k) * eps;
    MulMonotone(p, eps, d);
  }

  lemma MulAtLeast(p: real, m: real)
    requires p >= 0.0 && m >= 1.0
    ensures p * m >= p
  {
    assert p * (m - 1.0) >= 0.0;
  }

  lemma MulMonotone(a: real, b: real, d: real)
    requires a <= b && d >= 0.0
    ensures a * d <= b * d
  {
    assert (b - a) * d >= 0.0;
  }
}
