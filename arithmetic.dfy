/** Facts about Euclidean division on naturals that the pass-length proofs need. */
module Arithmetic {

  lemma {:induction false} MulAtLeast(k: int, d: nat)
    requires k >= 1 && d >= 1
    ensures k * d >= k
    decreases d
  {
    if d > 1 {
      MulAtLeast(k, d - 1);
      assert k * d == k * (d - 1) + k;
    }
  }

  /** A quotient and remainder in range are the quotient and remainder. */
  lemma DivModUnique(n: int, k: int, q: int, r: int)
    requires k >= 1 && 0 <= r < k && n == k * q + r
    ensures q == n / k && r == n % k
  {
    var q0, r0 := n / k, n % k;
    assert k * q0 + r0 == n;
    if q > q0 {
      MulAtLeast(k, q - q0);
    } else if q < q0 {
      MulAtLeast(k, q0 - q);
    }
  }

  lemma DivMinusDivisor(n: int, k: int)
    requires k >= 1 && n >= k
    ensures (n - k) / k == n / k - 1
  {
    DivModUnique(n - k, k, n / k - 1, n % k);
  }

  /** Counting one more: the remainder grows by one, or wraps to 0 and the quotient grows by one. */
  lemma DivModStep(n: nat, k: int)
    requires k >= 1
    ensures n % k + 1 < k ==> (n + 1) / k == n / k && (n + 1) % k == n % k + 1
    ensures n % k + 1 == k ==> (n + 1) / k == n / k + 1 && (n + 1) % k == 0
  {
    if n % k + 1 < k {
      DivModUnique(n + 1, k, n / k, n % k + 1);
    } else {
      DivModUnique(n + 1, k, n / k + 1, 0);
    }
  }

  /** A counter between 1 and k is a multiple of k only at k. */
  lemma ModOfCounter(a: int, k: int)
    requires 1 <= a <= k
    ensures a % k == 0 <==> a == k
  {
    if a < k {
      DivModUnique(a, k, 0, a);
    } else {
      DivModUnique(a, k, 1, 0);
    }
  }
}
