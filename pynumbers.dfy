/** Python's conversions of an exact quotient to an integer: `int()`, which
    truncates toward zero, and `round()`, which rounds half to even. */
module PyNumbers {

  /** Python's `int(n / d)` for a positive `d`: the quotient truncated toward zero. */
  function TruncDiv(n: int, d: int): (q: int)
    requires d > 0
  {
    if n >= 0 then n / d else -((-n) / d)
  }

  /** Python's `round(num / den)` for a positive denominator: the nearest
      integer, and the even one of the two when the value is exactly halfway. */
  function RoundHalfEven(num: int, den: int): (r: int)
    requires den > 0
    ensures num / den <= r <= num / den + 1
    ensures 2 * num - den <= 2 * r * den <= 2 * num + den
    ensures 2 * r * den - 2 * num == den ==> r % 2 == 0
    ensures 2 * num - 2 * r * den == den ==> r % 2 == 0
  {
    var q, rem := num / den, num % den;
    assert 2 * q * den == 2 * num - 2 * rem;
    assert 2 * (q + 1) * den == 2 * num - 2 * rem + 2 * den;
    if 2 * rem > den || (2 * rem == den && q % 2 == 1) then q + 1 else q
  }

  lemma DivMonotone(n1: int, n2: int, den: int)
    requires den > 0 && n1 <= n2
    ensures n1 / den <= n2 / den
  {
    var q1, q2 := n1 / den, n2 / den;
    if q2 < q1 {
      assert den * (q1 - q2 - 1) >= 0 by {
        MulNonNegative(den, q1 - q2 - 1);
      }
      assert false;
    }
  }

  /** A numerator in [0, k * den) has a quotient in [0, k). */
  lemma QuotientBelow(num: int, den: int, k: int)
    requires den > 0 && 0 <= num < k * den
    ensures 0 <= num / den < k
  {
    var q := num / den;
    if q >= k {
      assert den * (q - k) >= 0 by {
        MulNonNegative(den, q - k);
      }
      assert false;
    }
  }

  lemma MulNonNegative(a: int, b: int)
    requires a >= 0 && b >= 0
    ensures a * b >= 0
  {
  }

  /** Rounding half-to-even never decreases as the numerator grows. */
  lemma RoundHalfEvenMonotone(n1: int, n2: int, den: int)
    requires den > 0 && n1 <= n2
    ensures RoundHalfEven(n1, den) <= RoundHalfEven(n2, den)
  {
    DivMonotone(n1, n2, den);
    var q1, q2 := n1 / den, n2 / den;
    if q1 == q2 {
      assert n1 % den <= n2 % den;
    }
  }
}
