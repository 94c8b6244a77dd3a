/**
 * `fft_pure_python`: the length guard, the removal of the window's mean, the
 * in-place reordering loop and the in-place butterfly passes.
 *
 * Arithmetic is exact (reals), not floating point. As written, the twiddle `w`
 * is reset to 1 before every block and only advanced after the block's last
 * butterfly, so every butterfly multiplies by exactly 1; the model does the same.
 */
module Spectrum {
  import opened Arith
  import opened Bits
  import opened Samples

  datatype Complex = Complex(re: real, im: real)

  const Zero := Complex(0.0, 0.0)
  const One := Complex(1.0, 0.0)

  function Add(x: Complex, y: Complex): Complex
  {
    Complex(x.re + y.re, x.im + y.im)
  }

  function Sub(x: Complex, y: Complex): Complex
  {
    Complex(x.re - y.re, x.im - y.im)
  }

  /** The complex product; 1 is its identity. */
  function Mul(x: Complex, y: Complex): (r: Complex)
    ensures y == One ==> r == x
  {
    Complex(x.re * y.re - x.im * y.im, x.re * y.im + x.im * y.re)
  }

  /** What `fft_pure_python` ends in. */
  datatype FftOutcome =
    | NotPowerOfTwo                        // `return None` at the length guard
    | DivisionByZero                       // an empty window: the mean divides by zero and raises
    | Transformed(spectrum: seq<Complex>)  // the list it returns

  // ---------------------------------------------------------------------------
  // The length guard

  /**
   * The guard `N & (N - 1) != 0`. For N == 0 Python computes `0 & -1`, which is 0,
   * so the empty window passes the guard.
   */
  predicate GuardRejects(n: nat)
  {
    n != 0 && And(n, n - 1) != 0
  }

  /** The guard turns away exactly the lengths that are not powers of two (0 aside). */
  lemma GuardRejectsExactlyNonPowersOfTwo(n: nat)
    ensures GuardRejects(n) <==> n >= 1 && !IsPow2(n)
  {
    if n >= 1 {
      AndPredecessorZeroIffPow2(n);
    }
  }

  // ---------------------------------------------------------------------------
  // Mean removal

  /** Each sample less m, as a complex number with no imaginary part. */
  function Deviations(samples: seq<int>, m: real): (r: seq<Complex>)
    ensures |r| == |samples|
    ensures forall p :: 0 <= p < |r| ==> r[p].re == samples[p] as real - m && r[p].im == 0.0
  {
    seq(|samples|, p requires 0 <= p < |samples| => Complex(samples[p] as real - m, 0.0))
  }

  /** Lines 125-126: the window less its mean, as complex numbers; they sum to exactly zero. */
  function Centered(samples: seq<int>): (r: seq<Complex>)
    requires |samples| > 0
    ensures |r| == |samples|
    ensures SumC(r) == Zero
  {
    SumDeviations(samples, Mean(samples));
    assert |samples| as real * Mean(samples) == Sum(samples) as real;
    Deviations(samples, Mean(samples))
  }

  /** The complex sum of a sequence, from the front. */
  function SumC(s: seq<Complex>): Complex
  {
    if s == [] then Zero else Add(s[0], SumC(s[1..]))
  }

  lemma {:induction false} SumCConcat(s: seq<Complex>, t: seq<Complex>)
    ensures SumC(s + t) == Add(SumC(s), SumC(t))
  {
    if s == [] {
      assert s + t == t;
    } else {
      assert (s + t)[0] == s[0] && (s + t)[1..] == s[1..] + t;
      SumCConcat(s[1..], t);
    }
  }

  lemma {:induction false} SumDeviations(samples: seq<int>, m: real)
    ensures SumC(Deviations(samples, m)) == Complex(Sum(samples) as real - |samples| as real * m, 0.0)
  {
    if samples != [] {
      assert Deviations(samples, m)[1..] == Deviations(samples[1..], m);
      SumDeviations(samples[1..], m);
    }
  }

  predicate AllZero(s: seq<Complex>)
  {
    forall p :: 0 <= p < |s| ==> s[p] == Zero
  }

  /** A window of equal samples centres to all zeros. */
  lemma CenteredConstantIsZero(samples: seq<int>)
    requires |samples| > 0 && AllEqual(samples)
    ensures AllZero(Centered(samples))
  {
    MeanAllEqual(samples);
  }

  // ---------------------------------------------------------------------------
  // The reordering loop

  /**
   * s with its block [lo, hi) rotated one place to the right: the block's last
   * element moves to its front and the others move up by one.
   */
  function RotatedRight<T>(s: seq<T>, lo: nat, hi: nat): (r: seq<T>)
    requires lo < hi <= |s|
    ensures |r| == |s|
  {
    s[..lo] + [s[hi - 1]] + s[lo..hi - 1] + s[hi..]
  }

  /** Where each element of the rotated sequence comes from. */
  lemma RotatedRightAt<T>(s: seq<T>, lo: nat, hi: nat, p: nat)
    requires lo < hi <= |s| && p < |s|
    ensures RotatedRight(s, lo, hi)[p] == if p == lo then s[hi - 1] else if lo < p < hi then s[p - 1] else s[p]
  {
  }

  /**
   * What the reordering loop does to a window whose length N is a power of two:
   * it moves the element at N - 2 to position N / 2 and shifts N / 2 .. N - 3 up
   * by one. Every other position, the lower half included, keeps its element.
   */
  function Reordered<T>(s: seq<T>): (r: seq<T>)
    ensures |r| == |s|
  {
    if |s| < 4 then s else RotatedRight(s, |s| / 2, |s| - 1)
  }

  /** s cut around the block [lo, hi) that RotatedRight rotates. */
  lemma SplitForRotation<T>(s: seq<T>, lo: nat, hi: nat)
    requires lo < hi <= |s|
    ensures s == s[..lo] + s[lo..hi - 1] + [s[hi - 1]] + s[hi..]
  {
    assert s[lo..hi - 1] + [s[hi - 1]] == s[lo..hi];
    assert s[..lo] + s[lo..hi] == s[..hi];
    assert s[..hi] + s[hi..] == s;
  }

  /** The reordering is a permutation: same length, same multiset of elements. */
  lemma ReorderedIsPermutation<T>(s: seq<T>)
    ensures |Reordered(s)| == |s|
    ensures multiset(Reordered(s)) == multiset(s)
  {
    if |s| >= 4 {
      var lo, hi := |s| / 2, |s| - 1;
      SplitForRotation(s, lo, hi);
      assert Reordered(s) == s[..lo] + [s[hi - 1]] + s[lo..hi - 1] + s[hi..];
    }
  }

  /**
   * The lower half and the last element never move, so the loop is not the
   * bit-reversal permutation (which sends index 1 to N / 2), and for N <= 4 it
   * changes nothing at all.
   */
  lemma ReorderedKeepsLowerHalf<T>(s: seq<T>, p: nat)
    requires p < |s| && (p < |s| / 2 || p == |s| - 1 || |s| <= 4)
    ensures |Reordered(s)| == |s| && Reordered(s)[p] == s[p]
  {
    if |s| >= 4 {
      RotatedRightAt(s, |s| / 2, |s| - 1, p);
    }
  }

  /** For N = 8: the bit-reversal order would be 0 4 2 6 1 5 3 7; the loop gives this. */
  lemma ReorderedEight()
    ensures Reordered([0, 1, 2, 3, 4, 5, 6, 7]) == [0, 1, 2, 3, 6, 4, 5, 7]
  {
    var s := [0, 1, 2, 3, 4, 5, 6, 7];
    assert s[..4] == [0, 1, 2, 3] && s[4..6] == [4, 5] && s[7..] == [7];
    assert Reordered(s) == [0, 1, 2, 3] + [6] + [4, 5] + [7];
  }

  lemma RotatedRightOne<T>(s: seq<T>, lo: nat)
    requires lo < |s|
    ensures RotatedRight(s, lo, lo + 1) == s
  {
  }

  /**
   * Lines 131-134: the inner loop. Starting from 0 it XORs in N / 2 once and stops;
   * starting from N / 2 it does nothing. Either way i ends at N / 2.
   */
  method XorWalk(n: nat, i0: nat) returns (i: nat)
    requires i0 == 0 || i0 == n / 2
    ensures i == n / 2
  {
    i := i0;
    var k := n / 2;
    while k > i
      invariant (i == 0 && k == n / 2) || (i == n / 2 && k <= n / 2)
      decreases k
    {
      i := Xor(i, k);
      k := k / 2;
    }
  }

  /** Where the loop stops, the rotated block is the one Reordered describes. */
  lemma ReorderedAsRotation<T>(s: seq<T>, hi: nat)
    requires |s| >= 1 && hi == (if |s| >= 4 then |s| - 1 else |s| / 2 + 1)
    ensures RotatedRight(s, |s| / 2, hi) == Reordered(s)
  {
    if |s| < 4 {
      RotatedRightOne(s, |s| / 2);
    }
  }

  /** RotatedRight, element by element, for an array. */
  ghost predicate HoldsRotation(a: array<Complex>, s0: seq<Complex>, lo: nat, hi: nat)
    reads a
  {
    a.Length == |s0| && lo < hi <= |s0| &&
    forall p {:trigger a[p]} :: 0 <= p < a.Length ==>
      a[p] == if p == lo then s0[hi - 1] else if lo < p < hi then s0[p - 1] else s0[p]
  }

  lemma HoldsRotationSeq(a: array<Complex>, s0: seq<Complex>, lo: nat, hi: nat)
    requires HoldsRotation(a, s0, lo, hi)
    ensures a[..] == RotatedRight(s0, lo, hi)
  {
    var r := RotatedRight(s0, lo, hi);
    forall p | 0 <= p < a.Length
      ensures a[p] == r[p]
    {
      RotatedRightAt(s0, lo, hi, p);
      assert a[p] == if p == lo then s0[hi - 1] else if lo < p < hi then s0[p - 1] else s0[p];
    }
    assert a[..] == r;
  }

  /** Line 135: the swap, which extends the rotated block by one position. */
  method SwapStep(a: array<Complex>, lo: nat, hi: nat, ghost s0: seq<Complex>)
    requires hi < a.Length && HoldsRotation(a, s0, lo, hi)
    modifies a
    ensures HoldsRotation(a, s0, lo, hi + 1)
  {
    ghost var b := a[..];
    assert b[lo] == s0[hi - 1] && b[hi] == s0[hi];
    a[lo], a[hi] := a[hi], a[lo];
    forall p | 0 <= p < a.Length
      ensures a[p] == if p == lo then s0[hi] else if lo < p < hi + 1 then s0[p - 1] else s0[p]
    {
      assert p != lo && p != hi ==> a[p] == b[p];
    }
  }

  /** Lines 131-136: one round of the reordering loop, for j in 1 .. N - 2. */
  method ReorderRound(a: array<Complex>, i: nat, j: nat, ghost s0: seq<Complex>, ghost hi: nat)
    returns (i': nat, ghost hi': nat)
    requires 1 <= j < a.Length - 1
    requires i == if j == 1 then 0 else a.Length / 2
    requires hi == if j <= a.Length / 2 then a.Length / 2 + 1 else j
    requires HoldsRotation(a, s0, a.Length / 2, hi)
    modifies a
    ensures i' == a.Length / 2
    ensures hi' == if j + 1 <= a.Length / 2 then a.Length / 2 + 1 else j + 1
    ensures HoldsRotation(a, s0, a.Length / 2, hi')
  {
    i' := XorWalk(a.Length, i);
    hi' := hi;
    if j > i' {
      SwapStep(a, i', j, s0);
      hi' := j + 1;
    }
  }

  /** Before the first round nothing has moved: the rotated block is a single position. */
  lemma HoldsRotationStart(a: array<Complex>, s0: seq<Complex>, lo: nat)
    requires a[..] == s0 && lo < |s0|
    ensures HoldsRotation(a, s0, lo, lo + 1)
  {
  }

  /**
   * Lines 129-136: the reordering loop, literally, with its XOR walk and its swaps.
   */
  method Reorder(a: array<Complex>)
    modifies a
    ensures a[..] == Reordered(old(a[..]))
  {
    ghost var s0 := a[..];
    var n := a.Length;
    if n == 0 {
      return;  // the range of j is empty
    }
    var h := n / 2;
    ghost var hi := h + 1;
    HoldsRotationStart(a, s0, h);
    var i := 0;
    var j := 1;
    while j < n - 1
      invariant 1 <= j && (j <= n - 1 || j == 1)
      invariant i == if j == 1 then 0 else h
      invariant hi == if j <= h then h + 1 else j
      invariant HoldsRotation(a, s0, h, hi)
    {
      i, hi := ReorderRound(a, i, j, s0, hi);
      j := j + 1;
    }
    HoldsRotationSeq(a, s0, h, hi);
    ReorderedAsRotation(s0, hi);
  }

  // ---------------------------------------------------------------------------
  // The butterfly passes

  /** Index p of a block of `size` and its butterfly partner half a block away stay inside the window. */
  lemma PartnerInBlock(p: int, size: int, n: int)
    requires size >= 2 && size % 2 == 0 && n % size == 0 && 0 <= p < n
    ensures p % size < size / 2 ==> p + size / 2 < n
    ensures p % size >= size / 2 ==> p - size / 2 >= 0
  {
    BlockStart(p, size);
    AlignedGap(p - p % size, n, size);
  }

  /**
   * One pass of butterflies over blocks of `size`, all at once: the lower half of
   * each block gets `a + b`, the upper half `a - b`, where a and b are the
   * elements half a block apart (the twiddle is 1 throughout).
   */
  function Pass(s: seq<Complex>, size: nat): (r: seq<Complex>)
    requires size >= 2 && size % 2 == 0 && |s| % size == 0
  {
    seq(|s|, p requires 0 <= p < |s| => PassAt(s, size, p))
  }

  /** Position p after one pass. */
  function PassAt(s: seq<Complex>, size: nat, p: nat): Complex
    requires size >= 2 && size % 2 == 0 && |s| % size == 0 && p < |s|
  {
    PartnerInBlock(p, size, |s|);
    if p % size < size / 2 then Add(s[p], s[p + size / 2])
    else Sub(s[p - size / 2], s[p])
  }

  /** The passes for block sizes size, 2 * size, ..., N. */
  function Passes(s: seq<Complex>, size: nat): (r: seq<Complex>)
    requires IsPow2(|s|) && IsPow2(size) && size >= 2
    ensures |r| == |s|
    decreases |s| - size
  {
    if size > |s| then s
    else
      Pow2Divides(size, |s|);
      Passes(Pass(s, size), 2 * size)
  }

  /** Every butterfly of a pass reads and writes two positions k < l inside the window. */
  lemma ButterflyIndicesInRange(n: nat, size: nat, i: nat, j: nat)
    requires IsPow2(n) && IsPow2(size) && 2 <= size <= n
    requires i < n && i % size == 0 && j < size / 2
    ensures i + j < i + j + size / 2 < n
  {
    Pow2Divides(size, n);
    AlignedGap(i, n, size);
  }

  /** Two different butterflies of one pass touch disjoint pairs of positions. */
  lemma ButterfliesDisjoint(size: nat, i1: nat, j1: nat, i2: nat, j2: nat)
    requires size >= 2 && size % 2 == 0
    requires i1 % size == 0 && j1 < size / 2 && i2 % size == 0 && j2 < size / 2
    requires i1 != i2 || j1 != j2
    ensures {i1 + j1, i1 + j1 + size / 2} !! {i2 + j2, i2 + j2 + size / 2}
  {
    if i1 < i2 {
      AlignedGap(i1, i2, size);
    } else if i2 < i1 {
      AlignedGap(i2, i1, size);
    }
  }

  /** The two positions of one butterfly, as one pass leaves them. */
  lemma PassPair(s: seq<Complex>, size: nat, i: nat, j: nat)
    requires size >= 2 && size % 2 == 0 && |s| % size == 0
    requires i % size == 0 && j < size / 2 && i + size <= |s|
    ensures Pass(s, size)[i + j] == Add(s[i + j], s[i + j + size / 2])
    ensures Pass(s, size)[i + j + size / 2] == Sub(s[i + j], s[i + j + size / 2])
  {
    AlignedOffset(i, j, size);
    AlignedOffset(i, j + size / 2, size);
  }

  /**
   * s after the first j butterflies of the block of 2 * half elements at i:
   * each pair (x, y) half a block apart that has been visited holds (x + y, x - y).
   */
  function BlockState(s: seq<Complex>, i: nat, half: nat, j: nat): (r: seq<Complex>)
    requires j <= half && i + 2 * half <= |s|
    ensures |r| == |s|
  {
    seq(|s|, p requires 0 <= p < |s| =>
      if i <= p < i + j then Add(s[p], s[p + half])
      else if i + half <= p < i + half + j then Sub(s[p - half], s[p])
      else s[p])
  }

  /** One more butterfly: positions k = i + j and l = k + half still hold their first values. */
  lemma BlockStateStep(s: seq<Complex>, i: nat, half: nat, j: nat)
    requires j < half && i + 2 * half <= |s|
    ensures var k, l := i + j, i + j + half;
      var t := BlockState(s, i, half, j);
      t[k] == s[k] && t[l] == s[l] &&
      t[l := Sub(t[k], t[l])][k := Add(t[k], t[l])] == BlockState(s, i, half, j + 1)
  {
  }

  /**
   * Lines 145-151: the butterflies of one block, `half` pairs starting at i. The
   * twiddle w is 1 throughout: it is reset before the block and multiplied only after it.
   */
  method ButterflyBlock(a: array<Complex>, i: nat, half: nat)
    requires i + 2 * half <= a.Length
    modifies a
    ensures a[..] == BlockState(old(a[..]), i, half, half)
  {
    ghost var before := a[..];
    var w := One;
    var j := 0;
    assert a[..] == BlockState(before, i, half, 0);
    while j < half
      invariant 0 <= j <= half
      invariant a[..] == BlockState(before, i, half, j)
    {
      var k := i + j;
      var l := k + half;
      BlockStateStep(before, i, half, j);
      var t := Mul(a[l], w);
      a[l] := Sub(a[k], t);
      a[k] := Add(a[k], t);
      j := j + 1;
    }
  }

  /** s with the pass for `size` applied to the blocks below i. */
  function PassState(s: seq<Complex>, size: nat, i: nat): (r: seq<Complex>)
    requires size >= 2 && size % 2 == 0 && |s| % size == 0 && i <= |s|
    ensures |r| == |s|
  {
    seq(|s|, p requires 0 <= p < |s| => if p < i then PassAt(s, size, p) else s[p])
  }

  /** Doing the block at i moves the pass boundary from i to i + size. */
  lemma PassStateStep(s: seq<Complex>, size: nat, i: nat)
    requires size >= 2 && size % 2 == 0 && |s| % size == 0
    requires i % size == 0 && i + size <= |s|
    ensures BlockState(PassState(s, size, i), i, size / 2, size / 2) == PassState(s, size, i + size)
  {
    var h := size / 2;
    var t := PassState(s, size, i);
    var u := BlockState(t, i, h, h);
    var v := PassState(s, size, i + size);
    forall p | 0 <= p < |s|
      ensures u[p] == v[p]
    {
      if i <= p < i + h {
        AlignedOffset(i, p - i, size);
      } else if i + h <= p < i + size {
        AlignedOffset(i, p - i, size);
      }
    }
  }

  /** Lines 144-151: one pass, block by block for i = 0, size, 2 * size, ... */
  method ButterflyPass(a: array<Complex>, size: nat)
    requires size >= 2 && size % 2 == 0 && a.Length % size == 0
    modifies a
    ensures a[..] == Pass(old(a[..]), size)
  {
    var n := a.Length;
    var half := size / 2;
    ghost var before := a[..];
    var i := 0;
    assert a[..] == PassState(before, size, 0);
    while i < n
      invariant 0 <= i <= n && i % size == 0
      invariant a[..] == PassState(before, size, i)
    {
      AlignedGap(i, n, size);
      PassStateStep(before, size, i);
      ButterflyBlock(a, i, half);
      DivModUnique(size, i / size + 1, 0, i + size);
      i := i + size;
    }
    assert a[..] == Pass(before, size);
  }

  /** One step of Passes: while size <= N the pass for size applies, then the next size. */
  lemma PassesStep(s: seq<Complex>, size: nat)
    requires IsPow2(|s|) && IsPow2(size) && 2 <= size <= |s|
    ensures |s| % size == 0 && IsPow2(2 * size)
    ensures Passes(s, size) == Passes(Pass(s, size), 2 * size)
  {
    Pow2Divides(size, |s|);
  }

  /** Lines 139-153: passes for size = 2, 4, ..., N. */
  method Butterflies(a: array<Complex>)
    requires IsPow2(a.Length)
    modifies a
    ensures a[..] == Passes(old(a[..]), 2)
  {
    ghost var s0 := a[..];
    var n := a.Length;
    var size := 2;
    while size <= n
      invariant IsPow2(size) && size >= 2
      invariant Passes(a[..], size) == Passes(s0, 2)
      decreases n - size
    {
      PassesStep(a[..], size);
      ButterflyPass(a, size);
      size := size * 2;
    }
  }

  // ---------------------------------------------------------------------------
  // The first output is the sum of the window

  /** Rotating a block does not change the sum. */
  lemma SumCRotatedRight(s: seq<Complex>, lo: nat, hi: nat)
    requires lo < hi <= |s|
    ensures SumC(RotatedRight(s, lo, hi)) == SumC(s)
  {
    var a, b, c, d := s[..lo], [s[hi - 1]], s[lo..hi - 1], s[hi..];
    SplitForRotation(s, lo, hi);
    SumCConcat(a + b + c, d);
    SumCConcat(a + b, c);
    SumCConcat(a, b);
    SumCConcat(a + c + b, d);
    SumCConcat(a + c, b);
    SumCConcat(a, c);
  }

  lemma SumCReordered(s: seq<Complex>)
    ensures SumC(Reordered(s)) == SumC(s)
  {
    if |s| >= 4 {
      SumCRotatedRight(s, |s| / 2, |s| - 1);
    }
  }

  /** Every position at a multiple of w holds the sum of the w elements of orig from there on. */
  predicate BlockSums(orig: seq<Complex>, s: seq<Complex>, w: nat)
    requires |orig| == |s| && w >= 1
  {
    forall p :: 0 <= p && p + w <= |s| && p % w == 0 ==> s[p] == SumC(orig[p..p + w])
  }

  /** Block sums of size / 2 combine, in one pass, into block sums of size. */
  lemma PassBlockSum(orig: seq<Complex>, s: seq<Complex>, size: nat, q: nat)
    requires size >= 2 && size % 2 == 0 && |s| % size == 0 && |orig| == |s|
    requires q % size == 0 && q + size <= |s|
    requires BlockSums(orig, s, size / 2)
    ensures Pass(s, size)[q] == SumC(orig[q..q + size])
  {
    var h := size / 2;
    HalfAligned(q, size);
    PassPair(s, size, q, 0);
    assert s[q] == SumC(orig[q..q + h]);
    assert s[q + h] == SumC(orig[q + h..q + size]);
    assert orig[q..q + size] == orig[q..q + h] + orig[q + h..q + size];
    SumCConcat(orig[q..q + h], orig[q + h..q + size]);
  }

  lemma PassBlockSums(orig: seq<Complex>, s: seq<Complex>, size: nat)
    requires size >= 2 && size % 2 == 0 && |s| % size == 0 && |orig| == |s|
    requires BlockSums(orig, s, size / 2)
    ensures BlockSums(orig, Pass(s, size), size)
  {
    forall p | 0 <= p && p + size <= |s| && p % size == 0
      ensures Pass(s, size)[p] == SumC(orig[p..p + size])
    {
      PassBlockSum(orig, s, size, p);
    }
  }

  /** Once the block is the whole window, position 0 holds the whole sum. */
  lemma WholeBlockSum(orig: seq<Complex>, s: seq<Complex>, size: nat)
    requires IsPow2(|s|) && IsPow2(size) && |s| < size && size / 2 <= |s| && |orig| == |s|
    requires BlockSums(orig, s, size / 2)
    ensures s[0] == SumC(orig)
  {
    Pow2Gap(|s|, size);
    assert orig[0..size / 2] == orig;
  }

  /**
   * If, before the pass for `size`, every position at a multiple of size / 2
   * holds the sum of the size / 2 original elements from there on, the
   * remaining passes leave the sum of the whole original window at position 0.
   */
  lemma {:induction false} PassesCollectSum(orig: seq<Complex>, s: seq<Complex>, size: nat)
    requires IsPow2(|s|) && IsPow2(size) && size >= 2 && |orig| == |s| && size / 2 <= |s|
    requires BlockSums(orig, s, size / 2)
    ensures Passes(s, size)[0] == SumC(orig)
    decreases |s| - size
  {
    if size > |s| {
      WholeBlockSum(orig, s, size);
    } else {
      PassesStep(s, size);
      PassBlockSums(orig, s, size);
      assert (2 * size) / 2 == size;
      PassesCollectSum(orig, Pass(s, size), 2 * size);
    }
  }

  /** Lines 139-153: the first output is the sum of the window it is given. */
  lemma PassesFirstIsSum(s: seq<Complex>)
    requires IsPow2(|s|)
    ensures Passes(s, 2)[0] == SumC(s)
  {
    forall q | 0 <= q && q + 1 <= |s| && q % 1 == 0
      ensures s[q] == SumC(s[q..q + 1])
    {
      assert s[q..q + 1][1..] == [];
    }
    assert BlockSums(s, s, 1);
    PassesCollectSum(s, s, 2);
  }

  /** After the mean is removed, the transform's first (DC) bin is exactly zero. */
  lemma DcBinIsZero(samples: seq<int>)
    requires IsPow2(|samples|)
    ensures Passes(Reordered(Centered(samples)), 2)[0] == Zero
  {
    var c := Centered(samples);
    ReorderedIsPermutation(c);
    PassesFirstIsSum(Reordered(c));
    SumCReordered(c);
  }

  /**
   * With every twiddle equal to 1 the passes add and subtract only. For the
   * window 0, 1, 0, -1 (one period of a sine) a discrete Fourier transform has
   * magnitude 2 in bins 1 and 3; the routine as written puts it in bins 2 and 3.
   */
  lemma SineOverFour(w: seq<int>)
    requires w == [0, 1, 0, -1]
    ensures Passes(Reordered(Centered(w)), 2) == [Zero, Zero, Complex(2.0, 0.0), Complex(-2.0, 0.0)]
  {
    var m := Complex(-1.0, 0.0);
    var s := [Zero, One, Zero, m];
    var t := [One, m, m, One];
    var u := [Zero, Zero, Complex(2.0, 0.0), Complex(-2.0, 0.0)];
    SineCentered(w, s);
    assert Reordered(s) == s;
    assert IsPow2(4);
    SinePasses(s, t, u);
  }

  /** The window 0, 1, 0, -1 has mean 0, so removing it changes nothing. */
  lemma SineCentered(w: seq<int>, s: seq<Complex>)
    requires w == [0, 1, 0, -1]
    requires s == [Zero, One, Zero, Complex(-1.0, 0.0)]
    ensures Centered(w) == s
  {
    assert w[1..] == [1, 0, -1] && w[2..] == [0, -1] && w[3..] == [-1] && w[4..] == [];
    assert Sum(w[3..]) == -1;
    assert Sum(w[2..]) == -1;
    assert Sum(w) == 0;
    var c := Centered(w);
    assert Mean(w) == 0.0;
    assert c[0] == s[0] && c[1] == s[1] && c[2] == s[2] && c[3] == s[3];
  }

  lemma SinePasses(s: seq<Complex>, t: seq<Complex>, u: seq<Complex>)
    requires s == [Zero, One, Zero, Complex(-1.0, 0.0)]
    requires t == [One, Complex(-1.0, 0.0), Complex(-1.0, 0.0), One]
    requires u == [Zero, Zero, Complex(2.0, 0.0), Complex(-2.0, 0.0)]
    ensures Passes(s, 2) == u
  {
    assert IsPow2(4) && IsPow2(8);
    SineFirstPass(s, t);
    SineSecondPass(t, u);
    assert Passes(u, 8) == u;
    assert Passes(t, 4) == u;
  }

  lemma SineFirstPass(s: seq<Complex>, t: seq<Complex>)
    requires s == [Zero, One, Zero, Complex(-1.0, 0.0)]
    requires t == [One, Complex(-1.0, 0.0), Complex(-1.0, 0.0), One]
    ensures Pass(s, 2) == t
  {
    var r := Pass(s, 2);
    assert r[0] == PassAt(s, 2, 0) == Add(Zero, One) == t[0];
    assert r[1] == PassAt(s, 2, 1) == Sub(Zero, One) == t[1];
    assert r[2] == PassAt(s, 2, 2) == Add(Zero, s[3]) == t[2];
    assert r[3] == PassAt(s, 2, 3) == Sub(Zero, s[3]) == t[3];
  }

  lemma SineSecondPass(t: seq<Complex>, u: seq<Complex>)
    requires t == [One, Complex(-1.0, 0.0), Complex(-1.0, 0.0), One]
    requires u == [Zero, Zero, Complex(2.0, 0.0), Complex(-2.0, 0.0)]
    ensures Pass(t, 4) == u
  {
    assert PassAt(t, 4, 0) == u[0] && PassAt(t, 4, 1) == u[1];
    assert PassAt(t, 4, 2) == u[2] && PassAt(t, 4, 3) == u[3];
  }

  // ---------------------------------------------------------------------------
  // The whole routine

  /** `fft_pure_python(samples)`. */
  method FftPurePython(samples: seq<int>) returns (r: FftOutcome)
    ensures r.NotPowerOfTwo? <==> |samples| >= 1 && !IsPow2(|samples|)
    ensures r.DivisionByZero? <==> |samples| == 0
    ensures r.Transformed? ==>
      IsPow2(|samples|) && r.spectrum == Passes(Reordered(Centered(samples)), 2)
  {
    var n := |samples|;
    GuardRejectsExactlyNonPowersOfTwo(n);
    if GuardRejects(n) {
      return NotPowerOfTwo;
    }
    if n == 0 {
      return DivisionByZero;
    }
    var mean := Sum(samples) as real / n as real;
    var a := new Complex[n](p requires 0 <= p < n => Complex(samples[p] as real - mean, 0.0));
    assert mean == Mean(samples);
    assert a[..] == Centered(samples);
    Reorder(a);
    Butterflies(a);
    r := Transformed(a[..]);
  }

  // ---------------------------------------------------------------------------
  // Removing the mean silences a constant window

  lemma PassOfZeros(s: seq<Complex>, size: nat)
    requires size >= 2 && size % 2 == 0 && |s| % size == 0 && AllZero(s)
    ensures AllZero(Pass(s, size))
  {
    forall p | 0 <= p < |s|
      ensures Pass(s, size)[p] == Zero
    {
      PartnerInBlock(p, size, |s|);
    }
  }

  lemma ReorderedOfZeros(s: seq<Complex>)
    requires AllZero(s)
    ensures AllZero(Reordered(s))
  {
    if |s| >= 4 {
      forall p | 0 <= p < |s|
        ensures Reordered(s)[p] == Zero
      {
        RotatedRightAt(s, |s| / 2, |s| - 1, p);
      }
    }
  }

  lemma {:induction false} PassesOfZeros(s: seq<Complex>, size: nat)
    requires IsPow2(|s|) && IsPow2(size) && size >= 2 && AllZero(s)
    ensures AllZero(Passes(s, size))
    decreases |s| - size
  {
    if size <= |s| {
      Pow2Divides(size, |s|);
      PassOfZeros(s, size);
      PassesOfZeros(Pass(s, size), 2 * size);
    }
  }

  /** A window of equal samples (any DC level) transforms to an all-zero spectrum. */
  lemma ConstantWindowGivesZeroSpectrum(samples: seq<int>)
    requires IsPow2(|samples|) && AllEqual(samples)
    ensures AllZero(Passes(Reordered(Centered(samples)), 2))
  {
    var c := Centered(samples);
    CenteredConstantIsZero(samples);
    ReorderedOfZeros(c);
    PassesOfZeros(Reordered(c), 2);
  }
}
