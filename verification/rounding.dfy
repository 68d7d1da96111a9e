/**
 * Python 3's built-in `round` applied to a quotient of two integers.
 * `round` returns the nearest integer and, on an exact tie, the even one
 * ("banker's rounding"): round(0.5) == 0, round(1.5) == 2, round(-1.5) == -2.
 * The quotient is taken exactly, as a rational.
 */
module Rounding {

  function Abs(x: int): nat {
    if x < 0 then -x else x
  }

  /** k is a correct rounding of num/den: no integer is closer, and a tie goes to the even one. */
  predicate RoundsTo(num: int, den: int, k: int)
    requires den > 0
  {
    && 2 * Abs(num - k * den) <= den
    && (2 * Abs(num - k * den) == den ==> k % 2 == 0)
  }

  /** round(num / den) as Python 3 computes it, for den > 0. */
  function RoundHalfEven(num: int, den: int): (r: int)
    requires den > 0
    ensures RoundsTo(num, den, r)
  {
    var q, m := num / den, num % den;
    assert num - q * den == m;
    assert num - (q + 1) * den == m - den;
    if 2 * m < den then q
    else if 2 * m > den then q + 1
    else if q % 2 == 0 then q
    else q + 1
  }

  lemma MulAtLeast(d: int, den: int)
    requires d >= 1 && den > 0
    ensures d * den >= den
    ensures d >= 2 ==> d * den >= 2 * den
  {
    assert d * den == den + (d - 1) * den;
    if d >= 2 {
      assert d * den == 2 * den + (d - 2) * den;
    }
  }

  /** There is only one correct rounding, so RoundHalfEven is the rounding. */
  lemma RoundsToUnique(num: int, den: int, k: int)
    requires den > 0
    requires RoundsTo(num, den, k)
    ensures k == RoundHalfEven(num, den)
  {
    var r := RoundHalfEven(num, den);
    var a, b := num - r * den, num - k * den;
    if k > r {
      assert a - b == (k - r) * den;
      MulAtLeast(k - r, den);
      assert false;
    } else if k < r {
      assert b - a == (r - k) * den;
      MulAtLeast(r - k, den);
      assert false;
    }
  }

  /** The rounding lies between two bounds whenever the quotient does. */
  lemma {:induction false} RoundingBetween(num: int, den: int, lo: int, hi: int)
    requires den > 0
    requires lo * den <= num <= hi * den
    ensures lo <= RoundHalfEven(num, den) <= hi
  {
    var r := RoundHalfEven(num, den);
    if r < lo {
      assert lo * den - r * den == (lo - r) * den;
      MulAtLeast(lo - r, den);
      assert false;
    }
    if r > hi {
      assert r * den - hi * den == (r - hi) * den;
      MulAtLeast(r - hi, den);
      assert false;
    }
  }
}
