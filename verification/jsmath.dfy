/**
 * The JavaScript `Math` operations the core relies on, over exact integers:
 * `Math.max`, `Math.min`, `Math.ceil(a / b)` and `Math.round(p / q)`.
 */
module JsMath {

  function Max(a: int, b: int): (m: int)
    ensures m >= a && m >= b && (m == a || m == b)
  {
    if a >= b then a else b
  }

  function Min(a: int, b: int): (m: int)
    ensures m <= a && m <= b && (m == a || m == b)
  {
    if a <= b then a else b
  }

  /** `Math.ceil(a / b)`: the least integer that is at least a / b. */
  function CeilDiv(a: int, b: int): (r: int)
    requires b > 0
    ensures (r - 1) * b < a <= r * b
  {
    if a % b == 0 then a / b else a / b + 1
  }

  /**
   * `Math.round(p / q)`: the integer nearest to p / q, halves rounded up
   * (Math.round(x) is floor(x + 1/2)).
   */
  function RoundDiv(p: int, q: int): (r: int)
    requires q > 0
    ensures 2 * r * q - q <= 2 * p < 2 * r * q + q
  {
    (2 * p + q) / (2 * q)
  }

  /** Math.ceil of an exact quotient is that quotient. */
  lemma CeilDivExact(k: int, b: int)
    requires b > 0
    ensures CeilDiv(k * b, b) == k
  {
  }

  /**
   * A percentage `Math.round(part / whole * 100)` of a part that does not exceed
   * its whole lies in [0, 100], and for wholes below 200 it is 100 exactly when
   * the part is the whole.
   */
  lemma PercentBounds(part: int, whole: int)
    requires 0 <= part <= whole && whole > 0
    ensures 0 <= RoundDiv(100 * part, whole) <= 100
    ensures part == whole ==> RoundDiv(100 * part, whole) == 100
    ensures whole < 200 && RoundDiv(100 * part, whole) == 100 ==> part == whole
  {
    var r := RoundDiv(100 * part, whole);
    assert (2 * r - 201) * whole <= 0;
    ProductSign(2 * r - 201, whole);
    assert (2 * r + 1) * whole > 0;
    ProductSign(2 * r + 1, whole);
    if part == whole {
      assert (199 - 2 * r) * whole < 0;
      ProductSign(199 - 2 * r, whole);
    }
  }

  /** A product with a positive factor has the sign of the other factor. */
  lemma ProductSign(x: int, q: int)
    requires q > 0
    ensures x * q <= 0 ==> x <= 0
    ensures x * q > 0 ==> x > 0
  {
  }
}
