/** Facts about natural multiplication and division by a variable divisor. */
module Arithmetic {

  lemma MulMono(a: nat, b: nat, c: nat)
    requires a <= b
    ensures a * c <= b * c
  {
    assert b * c == a * c + (b - a) * c;
  }

  lemma MulMonoBoth(a: nat, b: nat, c: nat, d: nat)
    requires a <= b && c <= d
    ensures a * c <= b * d
  {
    MulMono(a, b, c);
    MulMono(c, d, b);
  }

  lemma MulCancel(a: nat, b: nat, c: nat)
    requires 0 < c && a * c <= b * c
    ensures a <= b
  {
    if b < a {
      assert a * c == b * c + (a - b) * c;
      assert (a - b) * c >= c by {
        MulMono(1, a - b, c);
      }
    }
  }

  lemma DivIdentity(n: nat, d: nat)
    requires 0 < d
    ensures n == (n / d) * d + n % d && 0 <= n % d < d
  {}

  lemma DivBounds(n: nat, d: nat)
    requires 0 < d
    ensures 0 <= n / d <= n
  {
    DivIdentity(n, d);
    if n < n / d {
      MulMono(1, d, n / d);
    }
  }

  /** The quotient is the largest `q` with `q * d <= n`. */
  lemma DivIsFloor(n: nat, d: nat)
    requires 0 < d
    ensures 0 <= n / d && (n / d) * d <= n < (n / d + 1) * d
  {
    DivIdentity(n, d);
    DivBounds(n, d);
  }

  lemma DivAtLeast(n: nat, d: nat, q: nat)
    requires 0 < d
    ensures q <= n / d <==> q * d <= n
  {
    DivIsFloor(n, d);
    if q <= n / d {
      MulMono(q, n / d, d);
    } else {
      MulMono(n / d + 1, q, d);
    }
  }

  /** The rounded-up quotient is the least `q` with `n <= q * d`. */
  lemma CeilAtMost(n: nat, d: nat, q: nat)
    requires 0 < d
    ensures (n + (d - 1)) / d <= q <==> n <= q * d
  {
    DivAtLeast(n + (d - 1), d, q + 1);
    assert (q + 1) * d == q * d + d;
  }

  lemma DivMono(m: nat, n: nat, d: nat)
    requires 0 < d && m <= n
    ensures m / d <= n / d
  {
    DivIsFloor(m, d);
    DivAtLeast(n, d, m / d);
  }

  lemma DivSuperadditive(m: nat, n: nat, d: nat)
    requires 0 < d
    ensures m / d + n / d <= (m + n) / d <= m / d + n / d + 1
  {
    DivIsFloor(m, d);
    DivIsFloor(n, d);
    var p, q := m / d, n / d;
    assert (p + q) * d == p * d + q * d;
    DivAtLeast(m + n, d, p + q);
    assert (p + q + 2) * d == (p + 1) * d + (q + 1) * d;
    DivAtLeast(m + n, d, p + q + 2);
  }

  lemma DivAddMultiple(n: nat, k: nat, d: nat)
    requires 0 < d
    ensures (n + k * d) / d == n / d + k
  {
    DivIsFloor(n, d);
    var q := n / d;
    assert (q + k) * d == q * d + k * d;
    assert (q + k + 1) * d == (q + 1) * d + k * d;
    DivAtLeast(n + k * d, d, q + k);
    DivAtLeast(n + k * d, d, q + k + 1);
  }

  lemma ModWithin(n: nat, d: nat)
    requires n < d
    ensures n % d == n && (n + d) % d == n
  {
    DivAtLeast(n, d, 1);
    DivBounds(n, d);
    DivIdentity(n, d);
    DivAddMultiple(n, 1, d);
    DivIdentity(n + 1 * d, d);
  }
}
