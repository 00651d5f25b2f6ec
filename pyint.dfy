/**
 * Python's `|` on its unbounded integers.  Python integers behave as
 * infinite two's-complement bit strings, so `a | b` is defined for every
 * pair of integers, negative ones included.  `a % 2` and `a / 2` below are
 * Dafny's Euclidean operators; with the positive divisor 2 they coincide
 * with Python's `a & 1` and `a >> 1` (floor division).
 */
module PyInt {

  function Abs(x: int): nat { if x < 0 then -x else x }

  /** Python's `a | b`. */
  function BitOr(a: int, b: int): (r: int)
    ensures a >= 0 && b >= 0 ==> a <= r && b <= r && r <= a + b
    ensures (a < 0 || b < 0) <==> r < 0
    decreases Abs(a) + Abs(b)
  {
    if a == 0 then b
    else if b == 0 then a
    else if a == -1 || b == -1 then -1
    else 2 * BitOr(a / 2, b / 2) + (if a % 2 == 1 || b % 2 == 1 then 1 else 0)
  }

  /** Bit `k` of `a` in two's complement, i.e. Python's `(a >> k) & 1 == 1`. */
  predicate TestBit(a: int, k: nat)
    decreases k
  {
    if k == 0 then a % 2 == 1 else TestBit(a / 2, k - 1)
  }

  function Pow2(n: nat): (r: nat)
    ensures r >= 1
  {
    if n == 0 then 1 else 2 * Pow2(n - 1)
  }

  lemma {:induction false} ZeroHasNoBits(k: nat)
    ensures !TestBit(0, k)
  {
    if k > 0 { ZeroHasNoBits(k - 1); }
  }

  lemma {:induction false} MinusOneHasAllBits(k: nat)
    ensures TestBit(-1, k)
  {
    if k > 0 { MinusOneHasAllBits(k - 1); }
  }

  /** `BitOr` is bitwise: each bit of the result is the OR of the operands' bits. */
  lemma {:induction false} BitOrBits(a: int, b: int, k: nat)
    ensures TestBit(BitOr(a, b), k) <==> TestBit(a, k) || TestBit(b, k)
    decreases k
  {
    if a == 0 {
      ZeroHasNoBits(k);
    } else if b == 0 {
      ZeroHasNoBits(k);
    } else if a == -1 || b == -1 {
      MinusOneHasAllBits(k);
    } else if k > 0 {
      var r := BitOr(a, b);
      assert r / 2 == BitOr(a / 2, b / 2);
      BitOrBits(a / 2, b / 2, k - 1);
    }
  }

  /**
   * A multiple of 2^n and a number in [0, 2^n) share no bit, so OR-ing them
   * is the same as adding them.
   */
  lemma {:induction false} DisjointBitOrIsSum(k: int, p: int, n: nat)
    requires 0 <= p < Pow2(n)
    ensures BitOr(k * Pow2(n), p) == k * Pow2(n) + p
    decreases n
  {
    var f := k * Pow2(n);
    if n > 0 && f != 0 && p != 0 {
      var q := Pow2(n - 1);
      assert f == 2 * (k * q);
      DisjointBitOrIsSum(k, p / 2, n - 1);
    }
  }
}
