/** Facts about exact means: a sum divided by a positive count. */
module Means {

  lemma PosMul(a: real, b: real)
    requires a > 0.0 && b > 0.0
    ensures a * b > 0.0
  {
  }

  /** Dividing by the count undoes multiplying by it. */
  lemma DivMul(x: real, y: real)
    requires y != 0.0
    ensures (x / y) * y == x
  {
  }

  /** A total between lo*y and hi*y over y lies between lo and hi. */
  lemma DivBounds(x: real, y: real, lo: real, hi: real)
    requires y > 0.0 && lo * y <= x <= hi * y
    ensures lo <= x / y <= hi
  {
    var q := x / y;
    assert q * y == x;
    if q > hi {
      PosMul(q - hi, y);
    }
    if q < lo {
      PosMul(lo - q, y);
    }
  }

  /** `total / n` for a positive count, 0 otherwise: the source's `n ? sum / n : 0`. */
  function Mean(total: real, n: int): real {
    if n > 0 then total / (n as real) else 0.0
  }

  /** A mean times its count gives back the total. */
  lemma MeanTimesCount(total: real, n: int)
    requires n > 0
    ensures Mean(total, n) * (n as real) == total
  {
    DivMul(total, n as real);
  }

  /** A mean of values between lo and hi lies between lo and hi. */
  lemma MeanBounds(total: real, n: int, lo: real, hi: real)
    requires n > 0 && lo * (n as real) <= total <= hi * (n as real)
    ensures lo <= Mean(total, n) <= hi
  {
    DivBounds(total, n as real, lo, hi);
  }
}
