/** Facts about integer multiplication and division the other modules share. */
module Arithmetic {

  lemma MulMonotone(a: int, x: int, y: int)
    requires a >= 0 && x <= y
    ensures a * x <= a * y
  {
  }

  /** Quotient and remainder are determined by `x == q * n + r` with
      `0 <= r < n`. */
  lemma DivModUnique(x: int, n: int, q: int, r: int)
    requires n > 0 && 0 <= r < n && x == q * n + r
    ensures x / n == q && x % n == r
  {
    var q', r' := x / n, x % n;
    assert (q' - q) * n == r - r';
    if q' > q {
      MulMonotone(n, 1, q' - q);
    } else if q' < q {
      MulMonotone(n, 1, q - q');
    }
  }
}
