/**
 * What the concentrated-pool reward dialogs share: the day length and the
 * duration bounds, the "meaningful number" test, and `toFixed` rounding.
 *
 * Numberish values are Dafny reals; `None` stands for `undefined` and for
 * the empty text of an input box.
 */
module RewardUtils {
  import opened Wrappers

  /** Seconds in a day. */
  const DAY_SECONDS: int := 24 * 60 * 60

  /** The shortest and the longest emission period, in days. */
  const MIN_DURATION: int := 7
  const MAX_DURATION: int := 90

  /** `isMeaningfulNumber`: present and not zero. */
  predicate IsMeaningfulNumber(n: Option<real>) {
    n.Some? && n.value != 0.0
  }

  /** `isMeaninglessNumber` is the negation of `isMeaningfulNumber`. */
  predicate IsMeaninglessNumber(n: Option<real>) {
    n.None? || n.value == 0.0
  }

  function Pow10(d: nat): (p: real)
    ensures p >= 1.0
  {
    if d == 0 then 1.0 else 10.0 * Pow10(d - 1)
  }

  /**
   * The number of `10^-d` steps `toFixed(d)` keeps: `x` scaled and rounded
   * half away from zero (the rounding mode of `Fraction.toFixed`), so a
   * negative value rounds as its magnitude does.
   */
  function Units(x: real, d: nat): (n: int)
    ensures x >= 0.0 ==> 0 <= n && n as real <= x * Pow10(d) + 0.5 < n as real + 1.0
    ensures x < 0.0 ==> n <= 0 && n as real - 1.0 < x * Pow10(d) - 0.5 <= n as real
  {
    if x >= 0.0 then (x * Pow10(d) + 0.5).Floor else -((-x) * Pow10(d) + 0.5).Floor
  }

  /** `toFixed(d)`: `x` rounded half away from zero to `d` decimal places. */
  function ToFixed(x: real, d: nat): (r: real)
    ensures r * Pow10(d) == Units(x, d) as real
  {
    Units(x, d) as real / Pow10(d)
  }

  /** Rounding moves a value by at most half a step, and a tie goes away from zero. */
  lemma ToFixedError(x: real, d: nat)
    ensures x >= 0.0 ==> x * Pow10(d) - 0.5 < ToFixed(x, d) * Pow10(d) <= x * Pow10(d) + 0.5
    ensures x < 0.0 ==> x * Pow10(d) - 0.5 <= ToFixed(x, d) * Pow10(d) < x * Pow10(d) + 0.5
  {
  }

  /** Rounding is symmetric about zero: a negated value rounds to the negated result. */
  lemma ToFixedSymmetric(x: real, d: nat)
    ensures ToFixed(-x, d) == -ToFixed(x, d)
  {
    var p := Pow10(d);
    if x > 0.0 {
      assert (-(-x)) * p == x * p;
      assert Units(-x, d) == -Units(x, d);
    } else if x < 0.0 {
      assert (-x) * p + 0.5 == -(x * p) + 0.5;
      assert Units(-x, d) == -Units(x, d);
    }
  }

  /** A negative tie rounds away from zero: -0.005 to two places is -0.01. */
  lemma NegativeTieRoundsAwayFromZero()
    ensures ToFixed(-0.005, 2) == -0.01
  {
    assert Pow10(2) == 100.0;
    assert Units(-0.005, 2) == -1;
  }

  /** A value already written with `d` decimals is left as it is. */
  lemma ToFixedIdempotent(x: real, d: nat)
    ensures ToFixed(ToFixed(x, d), d) == ToFixed(x, d)
  {
    var n := Units(x, d);
    var p := Pow10(d);
    assert ToFixed(x, d) * p == n as real;
    if n >= 0 {
      assert ToFixed(x, d) >= 0.0;
    } else {
      assert ToFixed(x, d) < 0.0;
    }
    assert Units(ToFixed(x, d), d) == n;
  }

  /** Values a whole step or more apart stay strictly ordered after rounding. */
  lemma ToFixedStepApart(x: real, y: real, d: nat)
    requires x * Pow10(d) + 1.0 <= y * Pow10(d)
    ensures ToFixed(x, d) < ToFixed(y, d)
  {
    UnitsStepApart(x, y, d);
    QuotientOrder(Units(x, d), Units(y, d), Pow10(d));
  }

  lemma UnitsStepApart(x: real, y: real, d: nat)
    requires x * Pow10(d) + 1.0 <= y * Pow10(d)
    ensures Units(x, d) < Units(y, d)
  {
    var p := Pow10(d);
    ScaledSign(x, p);
    ScaledSign(y, p);
  }

  lemma ScaledSign(x: real, p: real)
    requires p > 0.0
    ensures x >= 0.0 <==> x * p >= 0.0
  {
    if x < 0.0 {
      assert (-x) * p > 0.0;
    }
  }

  lemma QuotientOrder(m: int, n: int, p: real)
    requires m < n && p > 0.0
    ensures m as real / p < n as real / p
  {
    assert n as real / p - m as real / p == (n - m) as real / p;
  }

  /** Rounding keeps the order of the values it rounds. */
  lemma ToFixedMonotone(x: real, y: real, d: nat)
    requires x <= y
    ensures ToFixed(x, d) <= ToFixed(y, d)
  {
    var p := Pow10(d);
    assert x * p <= y * p;
    if x < 0.0 && y < 0.0 {
      assert (-y) * p <= (-x) * p;
    }
    assert Units(x, d) <= Units(y, d);
  }
}
