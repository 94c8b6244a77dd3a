/** Facts about integer division and remainder, and about blocks aligned to a multiple of their size. */
module Arith {

  /** Twice a multiple of a is a multiple of a. */
  lemma MultipleDoubled(m: nat, a: nat)
    requires a > 0 && m % a == 0
    ensures (2 * m) % a == 0
  {
    var q := m / a;
    assert m == a * q;
    assert 2 * m == a * (2 * q);
    DivModUnique(a, 2 * q, 0, 2 * m);
  }

  lemma {:induction false} MulAtLeast(a: nat, x: nat)
    requires x >= 1
    ensures a * x >= a
  {
    if x > 1 {
      MulAtLeast(a, x - 1);
      assert a * x == a * (x - 1) + a;
    }
  }

  /** Quotient and remainder are determined by n == size * q + r with 0 <= r < size. */
  lemma DivModUnique(size: int, q: int, r: int, n: int)
    requires size > 0 && 0 <= r < size && n == size * q + r
    ensures n / size == q && n % size == r
  {
    var d, m := n / size, n % size;
    assert size * q + r == size * d + m;
    assert size * (q - d) == m - r;
    if q - d >= 1 {
      MulAtLeast(size, q - d);
      assert false;
    } else if d - q >= 1 {
      MulAtLeast(size, d - q);
      assert false;
    }
  }

  /** Inside an aligned block, the offset is the remainder. */
  lemma AlignedOffset(i: int, j: int, size: int)
    requires size > 0 && i >= 0 && i % size == 0 && 0 <= j < size
    ensures (i + j) % size == j
  {
    var q := i / size;
    assert i == size * q;
    DivModUnique(size, q, j, i + j);
  }

  /** Two different aligned block starts are at least a block apart. */
  lemma AlignedGap(i: int, n: int, size: int)
    requires size > 0 && 0 <= i < n && i % size == 0 && n % size == 0
    ensures i + size <= n
  {
    var a, b := i / size, n / size;
    assert i == size * a && n == size * b;
    if b - a <= 0 {
      MulAtLeast(size, a - b + 1);
      assert false;
    }
    MulAtLeast(size, b - a);
    assert size * (b - a) == n - i;
  }

  /** Every index lies in an aligned block whose start is a multiple of size. */
  lemma BlockStart(p: int, size: int)
    requires size > 0 && p >= 0
    ensures 0 <= p - p % size <= p && (p - p % size) % size == 0
  {
    var q := p / size;
    assert p - p % size == size * q;
    DivModUnique(size, q, 0, size * q);
  }

  /** The quotient of n >= 0 by d is the q with q * d <= n < (q + 1) * d. */
  lemma DivBounds(n: int, d: int)
    requires n >= 0 && d > 0
    ensures 0 <= n / d && (n / d) * d <= n < (n / d + 1) * d
  {
    var q := n / d;
    assert n == d * q + n % d;
    assert (q + 1) * d == q * d + d;
  }

  /** A lower bound on the dividend is a lower bound on the quotient. */
  lemma DivAtLeast(n: int, d: int, m: int)
    requires d > 0 && n >= d * m
    ensures n / d >= m
  {
    var q := n / d;
    assert n == d * q + n % d;
    if q < m {
      MulAtLeast(d, m - q);
      assert false;
    }
  }

  /** An upper bound on the dividend bounds the quotient. */
  lemma DivAtMost(n: int, d: int, m: int)
    requires d > 0 && n < d * (m + 1)
    ensures n / d <= m
  {
    var q := n / d;
    assert n == d * q + n % d;
    if q > m {
      MulAtLeast(d, q - m);
      assert false;
    }
  }

  /** Division by a positive divisor does not reverse order. */
  lemma DivMonotone(a: int, b: int, d: int)
    requires d > 0 && a <= b
    ensures a / d <= b / d
  {
    var q := a / d;
    assert a == d * q + a % d;
    DivAtLeast(b, d, q);
  }

  /** A block of `size` at an aligned start splits into two aligned halves. */
  lemma HalfAligned(q: nat, size: nat)
    requires size >= 2 && size % 2 == 0 && q % size == 0
    ensures q % (size / 2) == 0 && (q + size / 2) % (size / 2) == 0
  {
    var k := q / size;
    assert q == (size / 2) * (2 * k);
    DivModUnique(size / 2, 2 * k, 0, q);
    DivModUnique(size / 2, 2 * k + 1, 0, q + size / 2);
  }
}
