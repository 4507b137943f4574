/** Volume rounding (crates/copier-core/src/routing.rs:230-235) over the reals. */
module Rounding {

  /** Nearest integer, ties away from zero (section 5.9 of IEEE 754-2008). */
  function Round(x: real): int {
    if x >= 0.0 then (x + 0.5).Floor else -((0.5 - x).Floor)
  }

  function Scale(x: real, y: real): real {
    x * y
  }

  function Ratio(x: real, y: real): real
    requires y > 0.0
  {
    x / y
  }

  /** Volumes carry at most eight decimals. */
  function ToTicks(x: real): real {
    x * 100_000_000.0
  }

  function FromTicks(x: real): real {
    x / 100_000_000.0
  }

  function NormalizeStep(value: real, step: real): real
    requires step > 0.0
  {
    if value <= 0.0 then 0.0
    else FromTicks(Round(ToTicks(Steps(Round(Ratio(value, step)), step))) as real)
  }

  /** `n` steps. */
  function Steps(n: int, step: real): real {
    Scale(n as real, step)
  }

  ghost predicate OnGrid(value: real, step: real) {
    exists n: int :: value == Steps(n, step)
  }

  /** The step is a whole number of 1e-8 ticks, so the second rounding loses nothing. */
  predicate WholeTicks(step: real) {
    ToTicks(step).Floor as real == ToTicks(step)
  }

  predicate Within(a: real, b: real, error: real) {
    b - error <= a <= b + error
  }

  lemma RoundNearest(x: real)
    ensures Within(Round(x) as real, x, 0.5)
    ensures Round(-x) == -Round(x)
  {
  }

  lemma RoundInteger(n: int)
    ensures Round(n as real) == n
  {
    if n >= 0 {
      assert (n as real + 0.5).Floor == n;
    } else {
      assert (0.5 - n as real).Floor == -n;
    }
  }

  lemma RoundMonotone(x: real, y: real)
    requires x <= y
    ensures Round(x) <= Round(y)
  {
  }

  lemma RatioScale(a: real, b: real)
    requires b > 0.0
    ensures Scale(Ratio(a, b), b) == a
    ensures Ratio(Scale(a, b), b) == a
  {
  }

  lemma ScaleLeq(a: real, b: real, c: real)
    requires a <= b && c >= 0.0
    ensures Scale(a, c) <= Scale(b, c)
  {
  }

  lemma ScaleSum(a: real, b: real, c: real)
    ensures Scale(a + b, c) == Scale(a, c) + Scale(b, c)
    ensures Scale(a - b, c) == Scale(a, c) - Scale(b, c)
  {
  }

  lemma RatioLeq(a: real, b: real, c: real)
    requires a <= b && c > 0.0
    ensures Ratio(a, c) <= Ratio(b, c)
  {
  }

  lemma ScaleWithin(a: real, b: real, c: real)
    requires Within(a, b, 0.5) && c > 0.0
    ensures Within(Scale(a, c), Scale(b, c), c / 2.0)
  {
    ScaleLeq(a - b, 0.5, c);
    ScaleLeq(-0.5, a - b, c);
    ScaleSum(a, b, c);
  }

  /** Rounding the quotient moves the product by at most half a step. */
  lemma NearestStep(value: real, step: real)
    requires step > 0.0
    ensures Within(Steps(Round(Ratio(value, step)), step), value, step / 2.0)
  {
    var q := Ratio(value, step);
    RoundNearest(q);
    ScaleWithin(Round(q) as real, q, step);
    RatioScale(value, step);
  }

  lemma WholeProduct(k: int, m: int, step: real)
    requires m as real == ToTicks(step)
    ensures ToTicks(Steps(k, step)) == (k * m) as real
  {
    var r := k as real;
    assert r * step * 100_000_000.0 == r * (step * 100_000_000.0);
    assert r * (m as real) == (k * m) as real;
  }

  lemma TicksInverse(x: real)
    ensures FromTicks(ToTicks(x)) == x
  {
  }

  lemma NonNegativeSteps(value: real, step: real)
    requires step > 0.0 && value >= 0.0
    ensures Round(Ratio(value, step)) >= 0
    ensures Steps(Round(Ratio(value, step)), step) >= 0.0
  {
    RatioLeq(0.0, value, step);
    RoundMonotone(0.0, Ratio(value, step));
    ScaleLeq(0.0, Round(Ratio(value, step)) as real, step);
  }

  /** On whole-tick steps the result is the nearest number of steps, exactly. */
  lemma NormalizeExact(value: real, step: real)
    requires step > 0.0 && WholeTicks(step)
    ensures NormalizeStep(value, step) == (if value <= 0.0 then 0.0 else Steps(Round(Ratio(value, step)), step))
    ensures OnGrid(NormalizeStep(value, step), step)
    ensures NormalizeStep(value, step) >= 0.0
  {
    if value <= 0.0 {
      GridZero(step);
    } else {
      var k, m := Round(Ratio(value, step)), ToTicks(step).Floor;
      WholeProduct(k, m, step);
      RoundInteger(k * m);
      TicksInverse(Steps(k, step));
      NonNegativeSteps(value, step);
    }
  }

  /** Within half a step of the request. */
  lemma NormalizeNear(value: real, step: real)
    requires step > 0.0 && WholeTicks(step) && value >= 0.0
    ensures Within(NormalizeStep(value, step), value, step / 2.0)
  {
    NormalizeExact(value, step);
    NearestStep(value, step);
  }

  /** For an arbitrary step the second rounding adds at most half a tick. */
  lemma NormalizeNearAnyStep(value: real, step: real)
    requires step > 0.0 && value >= 0.0
    ensures Within(NormalizeStep(value, step), value, step / 2.0 + 0.000_000_005)
  {
    if value > 0.0 {
      NearestStep(value, step);
      var nearest := Steps(Round(Ratio(value, step)), step);
      RoundNearest(ToTicks(nearest));
      NearTicks(Round(ToTicks(nearest)) as real, nearest);
    }
  }

  lemma NearTicks(n: real, x: real)
    requires Within(n, ToTicks(x), 0.5)
    ensures Within(FromTicks(n), x, 0.000_000_005)
  {
  }

  lemma NormalizeMonotone(a: real, b: real, step: real)
    requires step > 0.0 && a <= b
    ensures NormalizeStep(a, step) <= NormalizeStep(b, step)
  {
    if b > 0.0 {
      var x := if a <= 0.0 then 0.0 else a;
      RatioLeq(x, b, step);
      RoundMonotone(Ratio(x, step), Ratio(b, step));
      ScaleLeq(Round(Ratio(x, step)) as real, Round(Ratio(b, step)) as real, step);
      RoundMonotone(ToTicks(Steps(Round(Ratio(x, step)), step)), ToTicks(Steps(Round(Ratio(b, step)), step)));
      if a <= 0.0 {
        NonNegativeSteps(b, step);
        RoundMonotone(0.0, ToTicks(Steps(Round(Ratio(b, step)), step)));
      }
    }
  }

  /** Values already on the grid are fixed points. */
  lemma NormalizeFixed(n: int, step: real)
    requires step > 0.0 && WholeTicks(step) && n >= 0
    ensures NormalizeStep(Steps(n, step), step) == Steps(n, step)
  {
    RatioScale(n as real, step);
    RoundInteger(n);
    NormalizeExact(Steps(n, step), step);
    ScaleLeq(0.0, n as real, step);
  }

  lemma NormalizeIdempotent(value: real, step: real)
    requires step > 0.0 && WholeTicks(step)
    ensures NormalizeStep(NormalizeStep(value, step), step) == NormalizeStep(value, step)
  {
    NormalizeExact(value, step);
    if value > 0.0 {
      NonNegativeSteps(value, step);
      NormalizeFixed(Round(Ratio(value, step)), step);
    }
  }

  lemma NegativeSteps(n: int, step: real)
    requires n < 0 && step > 0.0
    ensures Steps(n, step) < 0.0
  {
    ScaleLeq(n as real, -1.0, step);
    assert Scale(-1.0, step) == -step;
  }

  /** Rounding never climbs over a grid point, so nearest-rounding a capped request respects
      the cap. */
  lemma NormalizeBelowGrid(value: real, cap: real, step: real)
    requires step > 0.0 && WholeTicks(step)
    requires OnGrid(cap, step) && value <= cap && 0.0 <= cap
    ensures NormalizeStep(value, step) <= cap
  {
    var n: int :| cap == Steps(n, step);
    if n < 0 {
      NegativeSteps(n, step);
    } else {
      NormalizeMonotone(value, cap, step);
      NormalizeFixed(n, step);
    }
  }

  /** Nor does it fall below one. */
  lemma NormalizeAboveGrid(value: real, least: real, step: real)
    requires step > 0.0 && WholeTicks(step)
    requires OnGrid(least, step) && least <= value
    ensures least <= NormalizeStep(value, step)
  {
    var n: int :| least == Steps(n, step);
    if n < 0 {
      NegativeSteps(n, step);
      NormalizeExact(value, step);
    } else {
      NormalizeMonotone(least, value, step);
      NormalizeFixed(n, step);
    }
  }

  lemma GridDifference(a: real, b: real, step: real)
    requires OnGrid(a, step) && OnGrid(b, step)
    ensures OnGrid(a - b, step)
  {
    var n: int :| a == Steps(n, step);
    var m: int :| b == Steps(m, step);
    ScaleSum(n as real, m as real, step);
    assert a - b == Steps(n - m, step);
  }

  lemma GridZero(step: real)
    ensures OnGrid(0.0, step)
  {
    assert 0.0 == Steps(0, step);
  }
}
