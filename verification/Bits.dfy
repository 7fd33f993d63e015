/** Rounding up by a bit mask on 64-bit words, and why it is rounding up. */
module Bits {
  import opened Arith

  function Pow2(k: nat): (p: nat)
    ensures p > 0
  {
    if k == 0 then 1 else 2 * Pow2(k - 1)
  }

  /** Bitwise and. */
  function And(x: nat, y: nat): nat {
    if x == 0 || y == 0 then 0 else 2 * And(x / 2, y / 2) + (x % 2) * (y % 2)
  }

  predicate IsPow2(a: nat) {
    exists k: nat :: k < 64 && Pow2(k) == a
  }

  lemma Pow2Of64()
    ensures Pow2(64) == TWO64
  {
    assert Pow2(8) == 256 by {
      assert Pow2(4) == 16;
    }
    Pow2Add(8, 8);
    Pow2Add(16, 16);
    Pow2Add(32, 32);
  }

  lemma {:induction false} Pow2Add(j: nat, k: nat)
    ensures Pow2(j + k) == Pow2(j) * Pow2(k)
  {
    if k > 0 {
      Pow2Add(j, k - 1);
      assert Pow2(j) * Pow2(k) == 2 * (Pow2(j) * Pow2(k - 1));
    }
  }

  lemma {:induction false} Pow2Grows(j: nat, k: nat)
    requires j <= k
    ensures Pow2(j) <= Pow2(k)
  {
    if j < k {
      Pow2Grows(j, k - 1);
    }
  }

  /** Anding with all ones changes nothing. */
  lemma {:induction false} AndOnes(x: nat, w: nat)
    requires x < Pow2(w)
    ensures And(x, Pow2(w) - 1) == x
  {
    if w > 0 && x > 0 {
      AndOnes(x / 2, w - 1);
      assert (Pow2(w) - 1) / 2 == Pow2(w - 1) - 1 && (Pow2(w) - 1) % 2 == 1;
    }
  }

  /** Remainders by a power of two, one bit at a time. */
  lemma LowBits(x: nat, p: nat)
    requires p > 0
    ensures x % (2 * p) == 2 * (x / 2 % p) + x % 2
  {
    var y, b := x / 2, x % 2;
    var q, r := y / p, y % p;
    assert y == q * p + r;
    assert q * (2 * p) == 2 * (q * p);
    DivUnique(x, 2 * p, q, 2 * r + b);
  }

  /** Anding with the complement of `2^k - 1` clears the low `k` bits. */
  lemma {:induction false} AndMask(x: nat, k: nat, w: nat)
    requires k <= w && x < Pow2(w)
    ensures Pow2(k) <= Pow2(w) && And(x, Pow2(w) - Pow2(k)) == x - x % Pow2(k)
  {
    Pow2Grows(k, w);
    if k == 0 {
      AndOnes(x, w);
    } else {
      AndMask(x / 2, k - 1, w - 1);
      LowBits(x, Pow2(k - 1));
      AndEven(x, Pow2(w - 1) - Pow2(k - 1));
    }
  }

  /** An even mask clears the lowest bit. */
  lemma {:induction false} AndEven(x: nat, m: nat)
    ensures And(x, 2 * m) == 2 * And(x / 2, m)
  {
    assert 2 * m / 2 == m && 2 * m % 2 == 0;
  }

  lemma SmallMod(x: nat, p: nat)
    requires x < p
    ensures x % p == x
  {
  }

  /** `(x + a - 1) & ~(a - 1)` on 64-bit words. */
  function MaskUp(x: nat, a: nat): nat
    requires 0 < a <= TWO64
  {
    And((x + a - 1) % TWO64, TWO64 - a)
  }

  /** `x + (a - x % a) % a`. */
  function ModUp(x: nat, a: nat): nat
    requires a > 0
  {
    x + (a - x % a) % a
  }

  /** The mask form rounds up whenever the alignment is a power of two and nothing overflows. */
  lemma {:induction false} MaskRoundsUp(x: nat, a: nat)
    requires IsPow2(a) && x + a <= TWO64
    ensures 0 < a <= TWO64 && MaskUp(x, a) == RoundUp(x, a)
  {
    hide And, Pow2;
    var k: nat :| k < 64 && Pow2(k) == a;
    Pow2Of64();
    Pow2Grows(k, 64);
    var y := x + a - 1;
    SmallMod(y, TWO64);
    AndMask(y, k, 64);
    var q, r := y / a, y % a;
    assert y == q * a + r;
    assert RoundUp(x, a) == q * a;
  }

  /** The modulus form rounds up for every alignment. */
  lemma {:induction false} ModRoundsUp(x: nat, a: nat)
    requires a > 0
    ensures ModUp(x, a) == RoundUp(x, a)
  {
    var q, r := x / a, x % a;
    assert x == q * a + r;
    if r == 0 {
      DivUnique(x + a - 1, a, q, a - 1);
      DivUnique(a, a, 1, 0);
    } else {
      assert (q + 1) * a == q * a + a;
      DivUnique(x + a - 1, a, q + 1, r - 1);
      SmallMod(a - r, a);
    }
  }

  /** With another alignment the two forms differ. */
  lemma {:induction false} FormsDisagree()
    ensures MaskUp(1, 3) == 1 && ModUp(1, 3) == 3
  {
    assert And(3, TWO64 - 3) == 2 * And(1, (TWO64 - 3) / 2) + 1;
    assert And(1, 0x7FFF_FFFF_FFFF_FFFE) == 0;
  }

  /** The two forms the checker uses agree on every power of two. */
  lemma {:induction false} FormsAgree(x: nat, a: nat)
    requires IsPow2(a) && x + a <= TWO64
    ensures 0 < a <= TWO64 && MaskUp(x, a) == ModUp(x, a)
  {
    MaskRoundsUp(x, a);
    ModRoundsUp(x, a);
  }

  lemma {:induction false} Pow2Divides(j: nat, k: nat)
    requires j <= k
    ensures Pow2(k) % Pow2(j) == 0
  {
    Pow2Add(j, k - j);
    assert Pow2(k - j) * Pow2(j) == Pow2(k);
    MultipleMod(Pow2(k - j), Pow2(j));
  }

  lemma {:induction false} Pow2Strict(j: nat, k: nat)
    requires j < k
    ensures Pow2(j) < Pow2(k)
  {
    Pow2Grows(j + 1, k);
    assert Pow2(j + 1) == 2 * Pow2(j);
  }

  /** Of two powers of two the smaller divides the larger. */
  lemma SmallerDivides(a: nat, b: nat)
    requires IsPow2(a) && IsPow2(b) && a <= b
    ensures a > 0 && b % a == 0
  {
    var j: nat :| j < 64 && Pow2(j) == a;
    var k: nat :| k < 64 && Pow2(k) == b;
    if k < j {
      Pow2Strict(k, j);
    }
    Pow2Divides(j, k);
  }

  /** A multiple of a multiple is a multiple. */
  lemma DivideThrough(n: nat, b: nat, a: nat)
    requires a > 0 && b > 0 && n % b == 0 && b % a == 0
    ensures n % a == 0
  {
    var p, q := n / b, b / a;
    assert n == p * b && b == q * a;
    assert p * (q * a) == (p * q) * a;
    MultipleMod(p * q, a);
  }
}
