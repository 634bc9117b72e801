/** Exact rational stand-ins for the JavaScript number operations the analyzers use. */
module Numeric {

  /** A confidence in percent. */
  type Percent = c: int | 0 <= c <= 100

  /** `Math.round`: the nearest integer, halves rounded up. */
  function RoundHalfUp(x: real): (n: int)
    ensures n as real - 0.5 <= x < n as real + 0.5
  {
    (x + 0.5).Floor
  }

  /** Rounding is monotone, so bounds on a quotient carry over to its rounded value. */
  lemma RoundHalfUpBetween(x: real, lo: int, hi: int)
    requires lo as real <= x <= hi as real
    ensures lo <= RoundHalfUp(x) <= hi
  {
  }

  function MaxReal(a: real, b: real): (m: real)
    ensures m >= a && m >= b && (m == a || m == b)
  {
    if a >= b then a else b
  }

  /** `Math.min` of two finite numbers. */
  function MinReal(a: real, b: real): (m: real)
    ensures m <= a && m <= b && (m == a || m == b)
  {
    if a <= b then a else b
  }

  function AbsReal(x: real): (m: real)
    ensures m >= 0.0 && (m == x || m == -x)
  {
    if x >= 0.0 then x else -x
  }

  /** A quotient of integers compared with a constant is the cross-multiplied integer comparison. */
  lemma QuotientBelow(a: int, b: int, c: real)
    requires b > 0
    ensures a as real / b as real < c <==> a as real < c * b as real
  {
    var q := a as real / b as real;
    assert q * b as real == a as real;
    if q < c {
      assert q * b as real < c * b as real;
    } else {
      assert q * b as real >= c * b as real;
    }
  }

  lemma QuotientAbove(a: int, b: int, c: real)
    requires b > 0
    ensures a as real / b as real > c <==> a as real > c * b as real
  {
    var q := a as real / b as real;
    assert q * b as real == a as real;
    if q > c {
      assert q * b as real > c * b as real;
    } else {
      assert q * b as real <= c * b as real;
    }
  }

  /** The share `m / total` of a majority `m` lies between one half and one. */
  lemma MajorityShare(m: nat, total: nat)
    requires 0 < total && total <= 2 * m && m <= total
    ensures 0.5 <= m as real / total as real <= 1.0
  {
    QuotientBelow(m, total, 0.5);
    QuotientAbove(m, total, 1.0);
  }

  /** `Math.round(m / total * 100)` of a majority share is a percentage in [50, 100]. */
  lemma RoundedMajorityShare(m: nat, total: nat)
    requires 0 < total && total <= 2 * m && m <= total
    ensures 50 <= RoundHalfUp(m as real / total as real * 100.0) <= 100
  {
    MajorityShare(m, total);
    RoundHalfUpBetween(m as real / total as real * 100.0, 50, 100);
  }
}
