/** Multiples and remainders. */
module Arith {

  lemma MulMonotone(a: nat, b: nat, c: nat)
    requires a <= b
    ensures a * c <= b * c
  {
  }

  /** Two multiples of a number less than that number apart are equal. */
  lemma CloseMultiples(q: nat, r: nat, n: nat)
    requires n > 0 && q * n < r * n + n && r * n < q * n + n
    ensures q == r
  {
    if q < r {
      MulMonotone(q + 1, r, n);
    } else if r < q {
      MulMonotone(r + 1, q, n);
    }
  }

  lemma DivModUnique(x: nat, q: nat, r: nat, n: nat)
    requires r < n && x == q * n + r
    ensures x / n == q && x % n == r
  {
    CloseMultiples(x / n, q, n);
  }

  lemma Distribute(a: nat, b: nat, n: nat)
    ensures (a + b) * n == a * n + b * n
  {
  }

  lemma DivPositive(x: nat, n: nat)
    requires 0 < n <= x
    ensures x / n >= 1
  {
  }
}
