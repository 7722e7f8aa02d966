/**
 Bitwise operators on naturals, and the bits they act on.
 */
module Bits {

  function Pow2(k: nat): (p: nat)
    ensures p > 0
  {
    if k == 0 then 1 else 2 * Pow2(k - 1)
  }

  function BitOr(a: nat, b: nat): (r: nat)
    decreases a + b
  {
    if a == 0 && b == 0 then 0
    else 2 * BitOr(a / 2, b / 2) + (if a % 2 == 1 || b % 2 == 1 then 1 else 0)
  }

  function BitAnd(a: nat, b: nat): (r: nat)
    decreases a + b
  {
    if a == 0 then 0 else 2 * BitAnd(a / 2, b / 2) + (if a % 2 == 1 && b % 2 == 1 then 1 else 0)
  }

  /** `a & ~b`. */
  function AndNot(a: nat, b: nat): (r: nat)
    ensures r <= a
    decreases a + b
  {
    if a == 0 then 0 else 2 * AndNot(a / 2, b / 2) + (if a % 2 == 1 && b % 2 == 0 then 1 else 0)
  }

  /** Bit `k` of `a`. */
  predicate Bit(a: nat, k: nat) { if k == 0 then a % 2 == 1 else Bit(a / 2, k - 1) }

  // ---------------------------------------------------------------- fields

  lemma {:induction false} OrZero(a: nat)
    ensures BitOr(a, 0) == a
    decreases a
  {
    if a > 0 {
      OrZero(a / 2);
    }
  }

  /** Fields that do not overlap add up. */
  lemma {:induction false} OrDisjoint(high: nat, k: nat, low: nat)
    requires low < Pow2(k)
    ensures BitOr(high * Pow2(k), low) == high * Pow2(k) + low
    decreases k
  {
    if k == 0 {
      OrZero(high);
    } else {
      var p := Pow2(k - 1);
      assert high * Pow2(k) == 2 * (high * p);
      OrDisjoint(high, k - 1, low / 2);
    }
  }

  lemma {:induction false} AndMask(k: nat, b: nat)
    ensures BitAnd(Pow2(k) - 1, b) == b % Pow2(k)
  {
    MaskOf(k, Pow2(k), b);
  }

  lemma {:induction false} MaskOf(k: nat, m: nat, b: nat)
    requires m == Pow2(k)
    ensures BitAnd(m - 1, b) == b % m
    decreases k
  {
    if k > 0 {
      MaskOf(k - 1, m / 2, b / 2);
      AndLonger(m / 2, m, b);
    }
  }

  lemma {:induction false} AndLonger(p: nat, m: nat, b: nat)
    requires m == 2 * p && p > 0 && BitAnd(p - 1, b / 2) == b / 2 % p
    ensures BitAnd(m - 1, b) == b % m
  {
    AndOdd(p - 1, b);
    HalfMod(b, p);
  }

  lemma {:induction false} AndOdd(a: nat, b: nat)
    ensures BitAnd(2 * a + 1, b) == 2 * BitAnd(a, b / 2) + b % 2
  {
    assert (2 * a + 1) / 2 == a && (2 * a + 1) % 2 == 1;
  }

  lemma HalfMod(b: nat, p: nat)
    requires p > 0
    ensures b % (2 * p) == 2 * (b / 2 % p) + b % 2
  {
    var q, r := b / 2 / p, b / 2 % p;
    assert b / 2 == q * p + r;
    assert b == q * (2 * p) + (2 * r + b % 2);
    ModIs(b, 2 * p, q, 2 * r + b % 2);
  }

  lemma ModIs(b: nat, m: nat, q: nat, r: nat)
    requires m > 0 && b == q * m + r && r < m
    ensures b % m == r
  {
    var d := b / m;
    assert b == d * m + b % m;
    assert d < q ==> (d + 1) * m <= q * m;
    assert d > q ==> (q + 1) * m <= d * m;
  }

  // ---------------------------------------------------------------- bit by bit

  lemma {:induction false} ZeroBits(k: nat)
    ensures !Bit(0, k)
    decreases k
  {
    if k > 0 {
      ZeroBits(k - 1);
    }
  }

  lemma {:induction false} OrHalf(a: nat, b: nat)
    ensures BitOr(a, b) / 2 == BitOr(a / 2, b / 2)
    ensures BitOr(a, b) % 2 == 1 <==> a % 2 == 1 || b % 2 == 1
  {
  }

  lemma {:induction false} OrBits(a: nat, b: nat, k: nat)
    ensures Bit(BitOr(a, b), k) <==> Bit(a, k) || Bit(b, k)
    decreases k
  {
    OrHalf(a, b);
    if k > 0 {
      OrBits(a / 2, b / 2, k - 1);
    }
  }

  lemma {:induction false} AndNotBits(a: nat, b: nat, k: nat)
    ensures Bit(AndNot(a, b), k) <==> Bit(a, k) && !Bit(b, k)
    decreases k
  {
    if a == 0 {
      ZeroBits(k);
    } else if k > 0 {
      AndNotBits(a / 2, b / 2, k - 1);
    }
  }

  lemma {:induction false} Pow2Bits(n: nat, k: nat)
    ensures Bit(Pow2(n), k) <==> k == n
    decreases n
  {
    if n == 0 {
      if k > 0 {
        ZeroBits(k - 1);
      }
    } else if k > 0 {
      Pow2Bits(n - 1, k - 1);
    }
  }

  /** Testing a mask with one bit. */
  lemma {:induction false} TestBit(n: nat, a: nat)
    ensures BitAnd(Pow2(n), a) != 0 <==> Bit(a, n)
    decreases n
  {
    if n > 0 {
      TestBit(n - 1, a / 2);
    }
  }

  ghost predicate SameBits(a: nat, b: nat) { forall k: nat :: Bit(a, k) <==> Bit(b, k) }

  /** Numbers with the same bits are equal. */
  lemma {:induction false} BitsDecide(a: nat, b: nat)
    requires SameBits(a, b)
    ensures a == b
    decreases a + b
  {
    if a != 0 || b != 0 {
      assert Bit(a, 0) <==> Bit(b, 0);
      forall k: nat ensures Bit(a / 2, k) <==> Bit(b / 2, k) {
        assert Bit(a, k + 1) <==> Bit(b, k + 1);
      }
      BitsDecide(a / 2, b / 2);
    }
  }

  ghost predicate BitsWithin(a: nat, b: nat) { forall k: nat :: Bit(a, k) ==> Bit(b, k) }

  /** A number with fewer bits is not larger. */
  lemma {:induction false} WithinLe(a: nat, b: nat)
    requires BitsWithin(a, b)
    ensures a <= b
    decreases a
  {
    if a != 0 {
      assert Bit(a, 0) ==> Bit(b, 0);
      forall k: nat ensures Bit(a / 2, k) ==> Bit(b / 2, k) {
        assert Bit(a, k + 1) ==> Bit(b, k + 1);
      }
      WithinLe(a / 2, b / 2);
    }
  }
}
