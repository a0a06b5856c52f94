/** JavaScript numbers as the weather service uses them: finite values are taken
    as exact reals, and NaN is kept as a value of its own so that the
    comparisons and the remainder operator behave as they do on NaN. */
module Numbers {

  datatype Number = Finite(value: real) | NaN

  /** Truncation toward zero, the quotient JavaScript's `%` is built on. */
  function Trunc(r: real): (t: int)
    ensures r >= 0.0 ==> t as real <= r < t as real + 1.0
    ensures r < 0.0 ==> t as real - 1.0 < r <= t as real
  {
    if r >= 0.0 then r.Floor else -((-r).Floor)
  }

  /** `a` and `b` differ by a whole number of turns of 360 degrees. */
  predicate SameTurn(a: real, b: real) {
    ((a - b) / 360.0).Floor as real == (a - b) / 360.0
  }

  /** `x % 360` in JavaScript: the remainder of the truncated division, which
      takes the sign of the dividend; NaN stays NaN. */
  function Rem360(x: Number): (r: Number)
    ensures r.NaN? <==> x.NaN?
    ensures r.Finite? && x.value >= 0.0 ==> 0.0 <= r.value < 360.0
    ensures r.Finite? && x.value < 0.0 ==> -360.0 < r.value <= 0.0
    ensures r.Finite? ==> SameTurn(x.value, r.value)
  {
    match x
    case NaN => NaN
    case Finite(v) =>
      var q := Trunc(v / 360.0);
      assert (v - (v - 360.0 * q as real)) / 360.0 == q as real;
      Finite(v - 360.0 * q as real)
  }

  /** `x + c` for a finite constant `c`; NaN absorbs the addition. */
  function Add(x: Number, c: real): (r: Number)
  {
    match x
    case NaN => NaN
    case Finite(v) => Finite(v + c)
  }

  /** `x >= c`: false whenever `x` is NaN. */
  predicate AtLeast(x: Number, c: real) {
    x.Finite? && x.value >= c
  }

  /** `x < c`: false whenever `x` is NaN. */
  predicate Below(x: Number, c: real) {
    x.Finite? && x.value < c
  }
}
