/** Integer stand-ins for the `Math` functions the application applies to quotients. */
module Numbers {

  /** `Math.round(a / b)` for a positive divisor: the nearest integer, halves rounded up. */
  function RoundDiv(a: int, b: int): (r: int)
    requires b > 0
    ensures 2 * b * r <= 2 * a + b < 2 * b * r + 2 * b
  {
    (2 * a + b) / (2 * b)
  }

  /** A positive factor keeps a strict order at least one factor apart. */
  lemma MulStep(b: int, x: int, y: int)
    requires b > 0 && x < y
    ensures b * x + b <= b * y
  {
    var d := y - x;
    assert b * y == b * x + b * d;
    assert b * d == b + b * (d - 1);
    assert b * (d - 1) >= 0;
  }

  /** Rounding is monotone in the numerator. */
  lemma RoundDivMonotone(a: int, c: int, b: int)
    requires b > 0 && a <= c
    ensures RoundDiv(a, b) <= RoundDiv(c, b)
  {
    var r, s := RoundDiv(a, b), RoundDiv(c, b);
    if r > s {
      MulStep(2 * b, s, r);
    }
  }

  /** Rounding an exact multiple gives the multiple. */
  lemma RoundDivExact(k: int, b: int)
    requires b > 0
    ensures RoundDiv(k * b, b) == k
  {
    var r := RoundDiv(k * b, b);
    assert 2 * (k * b) == 2 * b * k;
    if r < k {
      MulStep(2 * b, r, k);
    } else if r > k {
      MulStep(2 * b, k, r);
    }
  }
}
