/**
 * Integer bit operations as Python performs them on non-negative integers,
 * and the powers of two that the FFT's length guard is about.
 */
module Bits {
  import opened Arith

  /** n is 1, 2, 4, 8, ... */
  predicate IsPow2(n: nat)
  {
    n == 1 || (n >= 2 && n % 2 == 0 && IsPow2(n / 2))
  }

  /** Python's `a & b` on non-negative integers, bit by bit from the lowest. */
  function And(a: nat, b: nat): (r: nat)
    ensures r <= a && r <= b
  {
    if a == 0 || b == 0 then 0
    else 2 * And(a / 2, b / 2) + (if a % 2 == 1 && b % 2 == 1 then 1 else 0)
  }

  /** Python's `a ^ b` on non-negative integers, bit by bit from the lowest. */
  function Xor(a: nat, b: nat): nat
  {
    if a == 0 then b
    else if b == 0 then a
    else 2 * Xor(a / 2, b / 2) + (if a % 2 != b % 2 then 1 else 0)
  }

  lemma {:induction false} AndSelf(m: nat)
    ensures And(m, m) == m
  {
    if m > 0 {
      AndSelf(m / 2);
    }
  }

  /** The classic test: for n >= 1, `n & (n - 1) == 0` exactly when n is a power of two. */
  lemma {:induction false} AndPredecessorZeroIffPow2(n: nat)
    requires n >= 1
    ensures And(n, n - 1) == 0 <==> IsPow2(n)
  {
    if n == 1 {
    } else if n % 2 == 1 {
      assert (n - 1) / 2 == n / 2;
      AndSelf(n / 2);
      assert And(n, n - 1) == 2 * (n / 2);
    } else {
      assert (n - 1) / 2 == n / 2 - 1;
      AndPredecessorZeroIffPow2(n / 2);
      assert And(n, n - 1) == 2 * And(n / 2, n / 2 - 1);
    }
  }

  /** Of two different powers of two the larger is at least twice the smaller. */
  lemma {:induction false} Pow2Gap(a: nat, b: nat)
    requires IsPow2(a) && IsPow2(b) && a < b
    ensures 2 * a <= b
  {
    if a != 1 {
      Pow2Gap(a / 2, b / 2);
    }
  }

  /** A power of two divides every power of two that is not smaller. */
  lemma {:induction false} Pow2Divides(a: nat, b: nat)
    requires IsPow2(a) && IsPow2(b) && a <= b
    ensures b % a == 0
  {
    if a < b {
      Pow2Gap(a, b);
      assert b % 2 == 0 && IsPow2(b / 2) && a <= b / 2;
      Pow2Divides(a, b / 2);
      MultipleDoubled(b / 2, a);
      assert 2 * (b / 2) == b;
    } else {
      DivModUnique(a, 1, 0, b);
    }
  }
}
