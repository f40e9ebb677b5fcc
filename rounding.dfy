/**
 * `Math.round` as the dashboard uses it: on a quotient of integers (per-member
 * performance, averages of integer scores) and on a real number (averages of
 * real-valued percentages). JavaScript rounds halves towards +infinity.
 */
module Rounding {

  /** `Math.round(x)`: the integer nearest to `x`, halves going up. */
  function RoundReal(x: real): (r: int)
    ensures r as real - 0.5 <= x < r as real + 0.5
  {
    (x + 0.5).Floor
  }

  /** `Math.round(p / q)` computed exactly on integers. */
  function RoundDiv(p: int, q: int): (r: int)
    requires q != 0
    ensures q > 0 ==> q * (2 * r - 1) <= 2 * p < q * (2 * r + 1)
    ensures q < 0 ==> q * (2 * r - 1) >= 2 * p > q * (2 * r + 1)
  {
    if q > 0 then (2 * p + q) / (2 * q) else (-2 * p - q) / (-2 * q)
  }

  /** At most one integer lies within half of `x`, so `RoundReal` is the only rounding. */
  lemma RoundUnique(x: real, a: int, b: int)
    requires a as real - 0.5 <= x < a as real + 0.5
    requires b as real - 0.5 <= x < b as real + 0.5
    ensures a == b
  {
  }

  /** Floor of an exact real quotient is Euclidean integer division. */
  lemma FloorOfQuotient(n: int, d: int)
    requires d > 0
    ensures (n as real / d as real).Floor == n / d
  {
    var f := n / d;
    var m := n % d;
    var dr := d as real;
    var frac := m as real / dr;
    assert frac * dr == m as real;
    var y := f as real + frac;
    assert y * dr == f as real * dr + frac * dr;
    assert (f * d) as real == f as real * dr;
    assert y * dr == n as real;
    assert (n as real / dr) * dr == n as real;
    Cancel(n as real / dr, y, dr);
    SmallerFactor(frac, 1.0, dr);
    if frac < 0.0 {
      SmallerFactor(0.0, -frac, dr);
    }
  }

  /** A positive factor preserves strict order. */
  lemma SmallerFactor(a: real, b: real, c: real)
    requires c > 0.0 && a * c < b * c
    ensures a < b
  {
  }

  /** A non-zero factor cancels. */
  lemma Cancel(a: real, b: real, c: real)
    requires c != 0.0 && a * c == b * c
    ensures a == b
  {
    assert (a - b) * c == 0.0;
  }

  /** Rounding the integer quotient agrees with rounding the exact real quotient. */
  lemma RoundDivIsRoundReal(p: int, q: int)
    requires q != 0
    ensures RoundDiv(p, q) == RoundReal(p as real / q as real)
  {
    var x := p as real / q as real;
    var qr := q as real;
    assert x * qr == p as real;
    if q > 0 {
      var y := (2 * p + q) as real / (2 * q) as real;
      assert y * (2.0 * qr) == 2.0 * p as real + qr;
      assert (x + 0.5) * (2.0 * qr) == 2.0 * p as real + qr;
      Cancel(x + 0.5, y, 2.0 * qr);
      FloorOfQuotient(2 * p + q, 2 * q);
    } else {
      var y := (-2 * p - q) as real / (-2 * q) as real;
      assert y * (-2.0 * qr) == -2.0 * p as real - qr;
      assert (x + 0.5) * (-2.0 * qr) == -2.0 * p as real - qr;
      Cancel(x + 0.5, y, -2.0 * qr);
      FloorOfQuotient(-2 * p - q, -2 * q);
    }
  }

  /** A quotient between 0 and `k` rounds to an integer between 0 and `k`. */
  lemma RoundDivRange(p: int, q: int, k: int)
    requires q > 0 && 0 <= p <= k * q
    ensures 0 <= RoundDiv(p, q) <= k
  {
    RoundDivIsRoundReal(p, q);
    var x := p as real / q as real;
    assert x * q as real == p as real;
    assert 0.0 <= x <= k as real by {
      assert x * q as real <= k as real * q as real;
    }
  }

  /** A real between 0 and `k` rounds to an integer between 0 and `k`. */
  lemma RoundRealRange(x: real, k: int)
    requires 0.0 <= x <= k as real
    ensures 0 <= RoundReal(x) <= k
  {
  }
}
