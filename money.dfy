/**
 * Monetary rounding. Amounts are Python floats in the source; here they are
 * exact reals, and Python's `round(x, 2)` becomes `Round2`, which rounds to the
 * nearest multiple of 0.01 and breaks ties towards an even number of cents.
 */
module Money {
  import opened Wrappers

  /** `x` is a whole number of cents. */
  predicate IsCents(x: real) {
    (x * 100.0).Floor as real == x * 100.0
  }

  /** Python's `round(x, 2)`: nearest cent, ties to the even cent. */
  function Round2(x: real): (r: real)
    ensures IsCents(r)
    ensures -0.005 <= r - x <= 0.005
  {
    var y := x * 100.0;
    var f := y.Floor;
    var frac := y - f as real;
    var n := if frac < 0.5 then f
             else if frac > 0.5 then f + 1
             else if f % 2 == 0 then f else f + 1;
    assert f as real <= y < f as real + 1.0;
    assert -0.5 <= n as real - y <= 0.5;
    assert (n as real / 100.0) * 100.0 == n as real;
    assert n as real / 100.0 - x == (n as real - y) / 100.0;
    n as real / 100.0
  }

  /** No whole number of cents is closer to `x` than `Round2(x)`. */
  lemma Round2Nearest(x: real, c: real)
    requires IsCents(c)
    ensures Abs(Round2(x) - x) <= Abs(c - x)
  {
    var y := x * 100.0;
    var f := y.Floor;
    var m := (c * 100.0).Floor;
    assert c == m as real / 100.0;
    var frac := y - f as real;
    if m <= f {
      assert m as real <= f as real <= y;
    } else {
      assert m >= f + 1;
    }
  }

  /** On an exact tie Round2 picks the even number of cents (banker's rounding). */
  lemma Round2TieIsEven(k: int)
    ensures Round2((k as real + 0.5) / 100.0) * 100.0 == (if k % 2 == 0 then k else k + 1) as real
  {
    var x := (k as real + 0.5) / 100.0;
    assert x * 100.0 == k as real + 0.5;
    assert (x * 100.0).Floor == k;
  }

  /** Rounding an amount that is already whole cents changes nothing. */
  lemma Round2Cents(x: real)
    requires IsCents(x)
    ensures Round2(x) == x
  {
    var y := x * 100.0;
    assert y.Floor as real == y;
  }

  /** Any whole number of hundredths is whole cents. */
  lemma CentsOf(k: int)
    ensures IsCents(k as real / 100.0)
  {
    assert (k as real / 100.0) * 100.0 == k as real;
  }

  /** Sums and differences of whole cents are whole cents. */
  lemma CentsAdd(a: real, b: real)
    requires IsCents(a) && IsCents(b)
    ensures IsCents(a + b) && IsCents(a - b)
  {
    var m, n := (a * 100.0).Floor, (b * 100.0).Floor;
    assert a == m as real / 100.0;
    assert b == n as real / 100.0;
    CentsOf(m + n);
    CentsOf(m - n);
  }

  /** Two amounts that round to the same cent differ by at most one cent. */
  lemma SameRoundingIsClose(a: real, b: real)
    requires Round2(a) == Round2(b)
    ensures Abs(a - b) <= 0.01
  {
  }

  function Abs(x: real): real {
    if x < 0.0 then -x else x
  }

  /** A numeric form field: a blank value counts as zero. */
  function Amount(v: Option<real>): real {
    if v.Some? then v.value else 0.0
  }
}
