/** The two-decimal rounding shared by every derived price. The back end
    writes it as `Math.round(x * 100.0) / 100.0`, and Java's `Math.round`
    is `floor(x + 1/2)`. The front end writes `parseFloat(x.toFixed(2))`,
    which for a non-negative exact decimal picks the same value (it picks
    the larger of two equally near candidates). */
module Rounding {

  /** Java's `Math.round` on an exact real: round half up. */
  function MathRound(x: real): (n: int)
    ensures n as real - 0.5 <= x < n as real + 0.5
  {
    (x + 0.5).Floor
  }

  /** `x` is a whole number of hundredths. */
  predicate IsCents(x: real)
  {
    (x * 100.0).Floor as real == x * 100.0
  }

  /** `x` rounded to two decimals. The result is the one whole number of
      hundredths `r` with `r - 0.005 <= x < r + 0.005`. */
  function Round2(x: real): (r: real)
    ensures IsCents(r)
    ensures r - 0.005 <= x < r + 0.005
  {
    var n := MathRound(x * 100.0);
    assert (n as real / 100.0) * 100.0 == n as real;
    n as real / 100.0
  }

  /** The two properties in Round2's contract single out its result. */
  lemma Round2Unique(x: real, c: real)
    requires IsCents(c)
    requires c - 0.005 <= x < c + 0.005
    ensures Round2(x) == c
  {
    var m := (c * 100.0).Floor;
    assert m as real - 0.5 <= x * 100.0 < m as real + 0.5;
    assert MathRound(x * 100.0) == m;
  }

  /** Rounding what is already rounded changes nothing. */
  lemma Round2OfCents(c: real)
    requires IsCents(c)
    ensures Round2(c) == c
  {
    Round2Unique(c, c);
  }

  lemma Round2Idempotent(x: real)
    ensures Round2(Round2(x)) == Round2(x)
  {
    Round2OfCents(Round2(x));
  }

  /** Rounding never reverses the order of two values. */
  lemma Round2Monotone(x: real, y: real)
    requires x <= y
    ensures Round2(x) <= Round2(y)
  {
    var a, b := MathRound(x * 100.0), MathRound(y * 100.0);
    assert x * 100.0 <= y * 100.0;
    assert a <= b;
    assert Round2(x) == a as real / 100.0 && Round2(y) == b as real / 100.0;
  }

  /** Rounding a non-negative value gives a non-negative value. */
  lemma Round2NonNegative(x: real)
    requires 0.0 <= x
    ensures 0.0 <= Round2(x)
  {
    Round2Monotone(0.0, x);
    Round2OfCents(0.0);
  }
}
