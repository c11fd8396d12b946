/** Powers of two, and the bitwise operators as functions on unbounded natural numbers. */
module Arithmetic {

  function Pow2(n: nat): (p: nat)
    ensures p >= 1
  {
    if n == 0 then 1 else 2 * Pow2(n - 1)
  }

  lemma {:induction false} Pow2Adds(a: nat, b: nat)
    ensures Pow2(a + b) == Pow2(a) * Pow2(b)
  {
    if a == 0 {
    } else {
      Pow2Adds(a - 1, b);
      assert Pow2(a + b) == 2 * Pow2(a - 1 + b);
    }
  }

  lemma Pow2Doubles(n: nat)
    ensures Pow2(n + 1) == 2 * Pow2(n)
    ensures Pow2(0) == 1
  {}

  lemma {:induction false} Pow2Grows(a: nat, b: nat)
    requires a <= b
    ensures Pow2(a) <= Pow2(b)
  {
    Pow2Adds(a, b - a);
    assert Pow2(b) == Pow2(a) * Pow2(b - a);
    ProductAtLeast(Pow2(a), Pow2(b - a));
  }

  lemma ProductAtLeast(x: nat, y: nat)
    requires y >= 1
    ensures x * y >= x
  {}

  lemma Pow2Multiplies(a: nat, b: nat, x: nat, y: nat)
    requires Pow2(a) == x && Pow2(b) == y
    ensures Pow2(a + b) == x * y
  {
    Pow2Adds(a, b);
  }

  /** The constants the code writes as literals. */
  lemma Pow2Values()
    ensures Pow2(4) == 16
    ensures Pow2(8) == 256
    ensures Pow2(31) == 0x8000_0000
    ensures Pow2(32) == 0x1_0000_0000
    ensures Pow2(53) == 0x20_0000_0000_0000
    ensures Pow2(63) == 0x8000_0000_0000_0000
    ensures Pow2(64) == 0x1_0000_0000_0000_0000
  {
    Pow2Multiplies(8, 8, 256, 256);
    Pow2Multiplies(16, 15, 0x1_0000, 0x8000);
    Pow2Multiplies(31, 1, 0x8000_0000, 2);
    Pow2Multiplies(32, 21, 0x1_0000_0000, 0x20_0000);
    Pow2Multiplies(32, 31, 0x1_0000_0000, 0x8000_0000);
    Pow2Multiplies(63, 1, 0x8000_0000_0000_0000, 2);
  }

  /** `n` is `d * q + r` with a remainder below `d` in only one way. */
  lemma DivModUnique(n: int, d: int, q: int, r: int)
    requires d > 0 && n == d * q + r && 0 <= r < d
    ensures n / d == q && n % d == r
  {
    var gap := n / d - q;
    assert d * gap == r - n % d by {
      assert d * gap == d * (n / d) - d * q;
    }
    SmallMultipleIsZero(d, gap);
  }

  lemma SmallMultipleIsZero(d: int, k: int)
    requires d > 0 && -d < d * k < d
    ensures k == 0
  {
    assert d * -k == -(d * k);
    if k >= 1 {
      ProductAtLeast(d, k);
    } else if k <= -1 {
      ProductAtLeast(d, -k);
    }
  }

  /** The bitwise conjunction of two numbers, bit by bit from the lowest. */
  function BitAnd(a: nat, b: nat): nat
    decreases a
  {
    if a == 0 then 0 else (if a % 2 == 1 && b % 2 == 1 then 1 else 0) + 2 * BitAnd(a / 2, b / 2)
  }

  /** The bitwise exclusive disjunction of two numbers. */
  function BitXor(a: nat, b: nat): nat
    decreases a + b
  {
    if a == 0 && b == 0 then 0 else (if a % 2 == b % 2 then 0 else 1) + 2 * BitXor(a / 2, b / 2)
  }

  /** Masking with `2^n - 1` keeps the remainder modulo `2^n`. */
  lemma {:induction false} MaskIsRemainder(a: nat, n: nat)
    ensures BitAnd(a, Pow2(n) - 1) == a % Pow2(n)
    decreases n, a
  {
    hide BitAnd;
    if n == 0 {
      MaskZero(a);
    } else {
      MaskIsRemainder(a / 2, n - 1);
      OddMask(a, Pow2(n - 1));
      RemainderByHalves(a, Pow2(n - 1));
    }
  }

  lemma {:induction false} MaskZero(a: nat)
    ensures BitAnd(a, 0) == 0
  {
    if a > 0 {
      MaskZero(a / 2);
    }
  }

  lemma OddMask(a: nat, p: nat)
    requires p > 0
    ensures BitAnd(a, 2 * p - 1) == a % 2 + 2 * BitAnd(a / 2, p - 1)
  {
    LowBit(p - 1, 1);
  }

  lemma RemainderByHalves(a: nat, p: nat)
    requires p > 0
    ensures a % (2 * p) == 2 * (a / 2 % p) + a % 2
  {
    var q, r := a / 2 / p, a / 2 % p;
    assert a / 2 == p * q + r;
    assert 2 * (p * q) == 2 * p * q;
    DivModUnique(a, 2 * p, q, 2 * r + a % 2);
  }

  lemma {:induction false} XorBelow(a: nat, b: nat, n: nat)
    requires a < Pow2(n) && b < Pow2(n)
    ensures BitXor(a, b) < Pow2(n)
  {
    if n > 0 && a + b > 0 {
      XorBelow(a / 2, b / 2, n - 1);
    }
  }

  /** A number with bit `n` set keeps that bit when combined with one below it. */
  lemma {:induction false} XorKeepsTopBit(a: nat, b: nat, n: nat)
    requires a < Pow2(n) <= b < Pow2(n + 1)
    ensures BitXor(a, b) >= Pow2(n)
  {
    if n > 0 {
      XorKeepsTopBit(a / 2, b / 2, n - 1);
    }
  }

  lemma XorParts(a: nat, b: nat)
    ensures BitXor(a, b) % 2 == if a % 2 == b % 2 then 0 else 1
    ensures BitXor(a, b) / 2 == BitXor(a / 2, b / 2)
  {
    LowBit(BitXor(a / 2, b / 2), if a % 2 == b % 2 then 0 else 1);
  }

  lemma LowBit(high: nat, low: nat)
    requires low < 2
    ensures (low + 2 * high) % 2 == low && (low + 2 * high) / 2 == high
  {}

  lemma {:induction false} XorCancels(a: nat, b: nat)
    ensures BitXor(BitXor(a, b), b) == a
    decreases a + b
  {
    if a + b > 0 {
      XorCancels(a / 2, b / 2);
      var x := BitXor(a, b);
      XorParts(a, b);
      XorParts(x, b);
      assert BitXor(x, b) / 2 == a / 2;
      assert BitXor(x, b) % 2 == a % 2;
    }
  }

  lemma {:induction false} XorCommutes(a: nat, b: nat)
    ensures BitXor(a, b) == BitXor(b, a)
    decreases a + b
  {
    if a + b > 0 {
      XorCommutes(a / 2, b / 2);
    }
  }

  /** Whether exactly one bit of the number is set. */
  predicate IsPowerOfTwo(n: nat)
  {
    n == 1 || (n > 0 && n % 2 == 0 && IsPowerOfTwo(n / 2))
  }

  lemma {:induction false} PowerOfTwoExponent(n: nat) returns (k: nat)
    requires IsPowerOfTwo(n)
    ensures Pow2(k) == n
  {
    if n == 1 {
      k := 0;
    } else {
      var j := PowerOfTwoExponent(n / 2);
      k := j + 1;
    }
  }
}
