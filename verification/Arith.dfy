/** Facts about multiples and remainders that the solver needs spelled out. */
module Arith {

  const TWO64: int := 0x1_0000_0000_0000_0000

  lemma MulGrows(k: int, a: int)
    requires k >= 1 && a > 0
    ensures k * a >= a
  {
  }

  lemma Distribute(k: int, j: int, a: int)
    ensures (k - j) * a == k * a - j * a
    ensures (k + j) * a == k * a + j * a
  {
  }

  /** Quotient and remainder are unique. */
  lemma DivUnique(n: int, a: int, q: int, r: int)
    requires a > 0 && n == q * a + r && 0 <= r < a
    ensures n / a == q && n % a == r
  {
    var d, e := n / a, n % a;
    assert n == d * a + e;
    Distribute(q, d, a);
    if q > d {
      MulGrows(q - d, a);
    } else if d > q {
      Distribute(d, q, a);
      MulGrows(d - q, a);
    }
  }

  /** Remainders digit by digit. */
  lemma DigitMod(b: nat, t: nat, p: nat)
    requires b < 256 && p > 0
    ensures 256 * p > 0 && (b + 256 * t) % (256 * p) == b + 256 * (t % p)
  {
    var q, r := t / p, t % p;
    assert t == q * p + r;
    assert q * (256 * p) == 256 * (q * p);
    DivUnique(b + 256 * t, 256 * p, q, b + 256 * r);
  }

  lemma MultipleMod(q: int, a: int)
    requires a > 0
    ensures q * a % a == 0
  {
    DivUnique(q * a, a, q, 0);
  }

  /** The least multiple of `a` that is not below `n`. */
  function RoundUp(n: nat, a: nat): (m: nat)
    requires a > 0
    ensures n <= m < n + a && m % a == 0
  {
    var q := (n + a - 1) / a;
    RoundUpBounds(n, a, q);
    q * a
  }

  lemma RoundUpBounds(n: nat, a: nat, q: int)
    requires a > 0 && q == (n + a - 1) / a
    ensures q >= 0 && n <= q * a < n + a && q * a % a == 0
  {
    var r := (n + a - 1) % a;
    assert n + a - 1 == q * a + r;
    MultipleMod(q, a);
    if q < 0 {
      Distribute(0, q, a);
      MulGrows(-q, a);
    }
  }

  lemma MultiplesApart(u: nat, m: nat, a: nat)
    requires a > 0 && u % a == 0 && m % a == 0 && u > m
    ensures u >= m + a
  {
    var p, q := u / a, m / a;
    assert u == p * a && m == q * a;
    Distribute(p, q, a);
    if p <= q {
      Distribute(q, p, a);
      if p < q {
        MulGrows(q - p, a);
      }
    } else {
      MulGrows(p - q, a);
    }
  }

  lemma RoundUpLeast(n: nat, a: nat, m: nat)
    requires a > 0 && n <= m && m % a == 0
    ensures RoundUp(n, a) <= m
  {
    var u := RoundUp(n, a);
    if u > m {
      MultiplesApart(u, m, a);
    }
  }

  predicate Multiple(m: int, n: nat) {
    n > 0 && m % n == 0
  }
}
