/** Division with remainder, for indices that wrap. */
module Modular {
  /** The index `n` places after `i`, wrapping around. */
  function Along(i: nat, n: nat, capacity: nat): (k: nat)
    requires 0 < capacity
    ensures k < capacity
  {
    (i + n) % capacity
  }

  lemma Ordered(a: int, b: int, d: int)
    requires a <= b && 0 < d
    ensures a * d <= b * d
  {}

  /** Quotient and remainder are the only ones. */
  lemma Divide(n: int, d: int, q: int, r: int)
    requires 0 <= r < d && n == q * d + r
    ensures n / d == q && n % d == r
  {
    var q', r' := n / d, n % d;
    assert n == q' * d + r';
    if q' < q { Ordered(q' + 1, q, d); }
    if q' > q { Ordered(q + 1, q', d); }
  }

  lemma ModStep(n: int, i: int, c: nat)
    requires 0 < c
    ensures (n % c + i) % c == (n + i) % c
  {
    var q := n / c;
    var k, r := (n + i) / c, (n + i) % c;
    assert n == q * c + n % c && n + i == k * c + r;
    assert n % c + i == (k - q) * c + r;
    Divide(n % c + i, c, k - q, r);
  }

  lemma ModDistinct(i: int, j: int, c: nat)
    requires i < j < i + c
    ensures i % c != j % c
  {
    var q, r := i / c, i % c;
    assert i == q * c + r;
    if r + (j - i) < c {
      Divide(j, c, q, r + (j - i));
    } else {
      Divide(j, c, q + 1, r + (j - i) - c);
    }
  }

  /** The distance between two indices, read off their remainders. */
  lemma ModDifference(n: int, m: int, c: nat)
    requires 0 < c
    ensures (n % c - m % c) % c == (n - m) % c
  {
    var q, p := n / c, m / c;
    var d := n % c - m % c;
    assert n == q * c + n % c && m == p * c + m % c;
    var k, r := (n - m) / c, (n - m) % c;
    assert n - m == k * c + r;
    assert n - m == (q - p) * c + d;
    assert d == (k - q + p) * c + r;
    Divide(d, c, k - q + p, r);
  }
}
