/** Facts about Euclidean `%` used to follow a selection index that wraps around. */
module Arith {

  lemma {:induction false} MulMono(a: int, b: int, n: int)
    ensures a <= b && n > 0 ==> a * n <= b * n
    decreases if a < b then b - a else 0
  {
    if a < b && n > 0 {
      MulMono(a, b - 1, n);
      assert b * n == (b - 1) * n + n;
    }
  }

  /** `y % n` is the only remainder in [0, n) of a quotient-remainder split of `y`. */
  lemma ModUnique(y: int, n: int, q: int, r: int)
    requires n > 0 && 0 <= r < n && y == q * n + r
    ensures y % n == r
  {
    var q', r' := y / n, y % n;
    assert y == q' * n + r';
    assert (q' + 1) * n == q' * n + n;
    assert (q + 1) * n == q * n + n;
    MulMono(q' + 1, q, n);
    MulMono(q + 1, q', n);
  }

  /** Reducing the first summand first does not change the remainder. */
  lemma ModAdd(a: int, b: int, n: int)
    requires n > 0
    ensures (a % n + b) % n == (a + b) % n
  {
    var q, p, r := a / n, (a % n + b) / n, (a % n + b) % n;
    assert a == q * n + a % n;
    assert a % n + b == p * n + r;
    assert a + b == (p + q) * n + r;
    ModUnique(a + b, n, p + q, r);
  }

  /** One step forward then `k - 1` more is `k` steps forward. */
  lemma ModNext(c: int, c1: int, k: int, n: int)
    requires n > 0 && c1 == (c + 1) % n
    ensures (c1 + (k - 1)) % n == (c + k) % n
  {
    ModAdd(c + 1, k - 1, n);
  }

  /** One step back then `k - 1` more is `k` steps back. */
  lemma ModPrev(c: int, c1: int, k: int, n: int)
    requires n > 0 && c1 == (c - 1) % n
    ensures (c1 - (k - 1)) % n == (c - k) % n
  {
    ModAdd(c - 1, -(k - 1), n);
  }
}
