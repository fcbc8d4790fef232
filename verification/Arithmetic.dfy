/** The few facts about division and multiples that the proofs need. */
module Arithmetic {

  lemma {:induction false} Multiples(n: nat, a: nat, b: nat)
    requires a < b
    ensures n * a + n <= n * b
  {
    assert n * b == n * (b - 1) + n;
    if a < b - 1 {
      Multiples(n, a, b - 1);
    }
  }

  // Dividing a budget among n leaves each at least what fits n times.
  lemma Share(n: nat, k: nat, budget: nat)
    requires n > 0 && n * k <= budget
    ensures k <= budget / n && n * (budget / n) <= budget
  {
    var q := budget / n;
    assert budget == n * q + budget % n;
    if q < k {
      Multiples(n, q, k);
    }
  }

  lemma ModIs(x: nat, k: nat, r: nat, n: nat)
    requires n > 0 && r < n && x == n * k + r
    ensures x % n == r
  {
    var e := x / n;
    assert x == n * e + x % n;
    if e < k {
      Multiples(n, e, k);
    } else if k < e {
      Multiples(n, k, e);
    }
  }

  lemma ModOfShift(x: nat, m: nat, n: nat)
    requires n > 0 && m < n
    ensures (x + m) % n == if x % n + m < n then x % n + m else x % n + m - n
  {
    var k := x / n;
    assert x == n * k + x % n;
    if x % n + m < n {
      ModIs(x + m, k, x % n + m, n);
    } else {
      assert x + m == n * (k + 1) + (x % n + m - n) by {
        assert n * (k + 1) == n * k + n;
      }
      ModIs(x + m, k + 1, x % n + m - n, n);
    }
  }
}
