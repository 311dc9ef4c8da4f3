/** Reconstruction of the wild level a creature had when it was captured, from
    its current wild level and its taming effectiveness. Doubles are modelled
    as exact reals; the .NET rounding primitives are written out. */
module LevelFound {
  import opened Primitives

  /** `Math.Round(double)`: the nearest integer, ties going to the even one. */
  function RoundHalfEven(x: real): (r: int)
    ensures x - 0.5 <= r as real <= x + 0.5
    ensures r as real - x == 0.5 || x - r as real == 0.5 ==> r % 2 == 0
  {
    var f := x.Floor;
    var frac := x - f as real;
    if frac < 0.5 then f
    else if frac > 0.5 then f + 1
    else if f % 2 == 0 then f
    else f + 1
  }

  /** `Math.Ceiling(double)`: the least integer not below `x`. */
  function Ceiling(x: real): (r: int)
    ensures x <= r as real < x + 1.0
  {
    -((-x).Floor)
  }

  const DecimalScale: real := 1_000_000.0

  /** `Math.Round(x, 6)`: scale by 10^6, round to even, scale back. */
  function Round6(x: real): (r: real)
    ensures x - 0.5 / DecimalScale <= r <= x + 0.5 / DecimalScale
  {
    RoundHalfEven(x * DecimalScale) as real / DecimalScale
  }

  /** The `(int)` conversion of a double that already holds an integer: the
      value itself when it fits, otherwise 0x80000000, the value x86/x64
      conversions produce for an out-of-range operand. */
  function ConvertToInt32(x: int): Int32 {
    if InInt32(x) then x else MinInt32
  }

  /** `levelHatched / (1 + tamingEff / 2)`: taming adds half the taming
      effectiveness as a fraction of the wild level. */
  function TamedQuotient(levelHatched: int, tamingEff: real): (q: real)
    requires tamingEff >= 0.0
    ensures q * (1.0 + tamingEff / 2.0) == levelHatched as real
  {
    levelHatched as real / (1.0 + tamingEff / 2.0)
  }

  /** The computing branch of `calculateLevelFound`. With a level step, the
      quotient is rounded to the nearest multiple of the step (the product
      is an unchecked `int` multiplication). Without one, it is rounded to six
      decimals and then rounded up. A zero step divides by zero; whatever
      `int` the non-finite double converts to, the product with the zero step
      is 0. */
  function EstimateWildLevel(levelHatched: Int32, tamingEff: real, levelStep: Option<Int32>): Int32
    requires tamingEff >= 0.0
  {
    var q := TamedQuotient(levelHatched, tamingEff);
    match levelStep
    case Some(step) =>
      if step == 0 then 0
      else Wrap32(ConvertToInt32(RoundHalfEven(q / step as real)) * step)
    case None =>
      ConvertToInt32(Ceiling(Round6(q)))
  }

  /** `calculateLevelFound`: 0 for a bred creature or an unknown (negative)
      taming effectiveness, the estimate otherwise. */
  function FoundLevel(isBred: bool, tamingEff: real, levelHatched: Int32, levelStep: Option<Int32>): Int32 {
    if isBred || tamingEff < 0.0 then 0
    else EstimateWildLevel(levelHatched, tamingEff, levelStep)
  }

  /** Bred creatures and creatures of unknown taming effectiveness have found
      level 0, whatever their levels and the level step. */
  lemma FoundLevelGuard(isBred: bool, tamingEff: real, levelHatched: Int32, levelStep: Option<Int32>)
    requires isBred || tamingEff < 0.0
    ensures FoundLevel(isBred, tamingEff, levelHatched, levelStep) == 0
  {
  }

  /** Taming only adds levels: dividing a non-negative level by a factor of at
      least 1 gives a quotient between 0 and the level. */
  lemma QuotientBounds(levelHatched: int, tamingEff: real)
    requires tamingEff >= 0.0 && levelHatched >= 0
    ensures 0.0 <= TamedQuotient(levelHatched, tamingEff) <= levelHatched as real
  {
    var q := TamedQuotient(levelHatched, tamingEff);
    var d := 1.0 + tamingEff / 2.0;
    QuotientNonNegative(levelHatched as real, d);
    if q > 0.0 {
      MultiplyMonotone(1.0, d, q);
    }
  }

  lemma QuotientNonNegative(a: real, d: real)
    requires a >= 0.0 && d > 0.0
    ensures a / d >= 0.0
  {
  }

  /** With taming effectiveness at most 1 the factor is at most 3/2, so the
      quotient is at least two thirds of the level. */
  lemma QuotientLowerBound(levelHatched: int, tamingEff: real)
    requires 0.0 <= tamingEff <= 1.0 && levelHatched >= 0
    ensures 2.0 * levelHatched as real <= 3.0 * TamedQuotient(levelHatched, tamingEff)
  {
    var q := TamedQuotient(levelHatched, tamingEff);
    var d := 1.0 + tamingEff / 2.0;
    QuotientBounds(levelHatched, tamingEff);
    assert q * d == levelHatched as real;
    if q > 0.0 {
      MultiplyMonotone(d, 1.5, q);
    }
  }

  /** Rounding to an integer never crosses an integer bound of its operand. */
  lemma RoundWithinIntegerBounds(x: real, lo: int, hi: int)
    requires lo as real <= x <= hi as real
    ensures lo <= RoundHalfEven(x) <= hi
  {
  }

  /** Without a level step, a non-negative wild level gives a found level
      between 0 and the wild level itself; when the taming effectiveness is at
      most 1 (its valid range), the found level is at least two thirds of it. */
  lemma EstimateWithinLevel(levelHatched: Int32, tamingEff: real)
    requires tamingEff >= 0.0 && levelHatched >= 0
    ensures 0 <= EstimateWildLevel(levelHatched, tamingEff, None) <= levelHatched
    ensures tamingEff <= 1.0 ==> 2 * levelHatched <= 3 * EstimateWildLevel(levelHatched, tamingEff, None)
  {
    var q := TamedQuotient(levelHatched, tamingEff);
    QuotientBounds(levelHatched, tamingEff);
    RoundWithinIntegerBounds(q * DecimalScale, 0, levelHatched * 1_000_000);
    var r := Round6(q);
    assert 0.0 <= r <= levelHatched as real;
    var c := Ceiling(r);
    assert 0 <= c <= levelHatched;
    if tamingEff <= 1.0 {
      QuotientLowerBound(levelHatched, tamingEff);
      assert 3.0 * c as real >= 3.0 * r >= 3.0 * q - 1.5 / DecimalScale;
      assert 3 * c > 2 * levelHatched - 1;
    }
  }

  /** With a positive level step and no overflow, the found level is the
      multiple of the step nearest to the quotient. */
  lemma SteppedEstimateIsNearestMultiple(levelHatched: Int32, tamingEff: real, step: Int32)
    requires tamingEff >= 0.0 && levelHatched >= 0 && step > 0
    requires levelHatched + step <= MaxInt32
    ensures var r := EstimateWildLevel(levelHatched, tamingEff, Some(step));
      && r >= 0 && r % step == 0
      && -(step as real) / 2.0 <= r as real - TamedQuotient(levelHatched, tamingEff) <= step as real / 2.0
  {
    var q := TamedQuotient(levelHatched, tamingEff);
    QuotientBounds(levelHatched, tamingEff);
    var n := RoundHalfEven(q / step as real);
    var m := RoundedMultipleBounds(q, step, n);
    assert m as real <= levelHatched as real + step as real / 2.0;
    assert 0 <= n <= m <= MaxInt32;
    assert EstimateWildLevel(levelHatched, tamingEff, Some(step)) == m;
  }

  /** Scaling the rounded quotient `n` of `q / step` back by `step` gives a
      multiple `m` of the step within half a step of `q`. */
  lemma RoundedMultipleBounds(q: real, step: int, n: int) returns (m: int)
    requires q >= 0.0 && step > 0
    requires n == RoundHalfEven(q / step as real)
    ensures m == n * step && m % step == 0
    ensures 0 <= n <= m
    ensures q - step as real / 2.0 <= m as real <= q + step as real / 2.0
  {
    var s := step as real;
    var x := q / s;
    assert x * s == q;
    assert x - 0.5 <= n as real <= x + 0.5;
    m := n * step;
    MultipleOfStep(n, step);
    calc {
      m as real;
    ==
      n as real * s;
    <= { MultiplyMonotone(n as real, x + 0.5, s); }
      (x + 0.5) * s;
    ==
      x * s + 0.5 * s;
    ==
      q + s / 2.0;
    }
    calc {
      q - s / 2.0;
    ==
      x * s - 0.5 * s;
    ==
      (x - 0.5) * s;
    <= { MultiplyMonotone(x - 0.5, n as real, s); }
      n as real * s;
    ==
      m as real;
    }
  }

  lemma MultiplyMonotone(a: real, b: real, s: real)
    requires a <= b && s > 0.0
    ensures a * s <= b * s
  {
  }

  lemma {:induction false} MultiplyAtLeast(k: int, step: int)
    requires k >= 1 && step > 0
    ensures k * step >= step
  {
    if k > 1 {
      MultiplyAtLeast(k - 1, step);
      assert k * step == (k - 1) * step + step;
    }
  }

  /** A non-negative multiple of a positive step is divisible by it and at
      least its factor. */
  lemma MultipleOfStep(n: int, step: int)
    requires n >= 0 && step > 0
    ensures n <= n * step && (n * step) % step == 0
  {
    var m := n * step;
    var d, r := m / step, m % step;
    assert m == d * step + r && 0 <= r < step;
    assert (n - d) * step == r;
    if n - d >= 1 {
      MultiplyAtLeast(n - d, step);
    } else if n - d <= -1 {
      MultiplyAtLeast(d - n, step);
    }
    if n > 0 {
      MultiplyAtLeast(step, n);
      assert step * n == n * step;
    }
  }

  /** A zero level step always gives found level 0. */
  lemma ZeroStepEstimate(levelHatched: Int32, tamingEff: real)
    requires tamingEff >= 0.0
    ensures EstimateWildLevel(levelHatched, tamingEff, Some(0)) == 0
  {
  }

  /** A wild level of 20 tamed at 50% effectiveness was captured at level 16. */
  lemma FoundLevelExample()
    ensures FoundLevel(false, 0.5, 20, None) == 16
  {
    assert TamedQuotient(20, 0.5) == 16.0;
    assert RoundHalfEven(16.0 * DecimalScale) == 16_000_000;
  }
}
