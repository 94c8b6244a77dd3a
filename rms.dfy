/**
 * The volume measure `calculate_rms`, up to (not including) its square root:
 * the population mean-square deviation of a window of samples, over exact reals.
 */
module Rms {
  import opened Samples

  /** a * b; squares are written as Product(x, x) so that their sign follows from ProductSign. */
  function Product(a: real, b: real): real
  {
    a * b
  }

  lemma ProductSign(a: real, b: real)
    ensures a > 0.0 && b > 0.0 ==> Product(a, b) > 0.0
    ensures a < 0.0 && b < 0.0 ==> Product(a, b) > 0.0
    ensures a == 0.0 ==> Product(a, b) == 0.0
  {
  }

  /** The square of x: never negative, and zero only at zero. */
  function Square(x: real): (r: real)
    ensures r >= 0.0 && (r == 0.0 <==> x == 0.0)
  {
    ProductSign(x, x);
    Product(x, x)
  }

  /** The sum of the squared deviations of the samples from m; never negative. */
  function SumSquaredDeviation(s: seq<int>, m: real): (r: real)
    ensures r >= 0.0
  {
    if s == [] then 0.0 else Square(s[0] as real - m) + SumSquaredDeviation(s[1..], m)
  }

  /**
   * The square of `calculate_rms(s)`: the quantity under its square root.
   * The empty window is 0 (no division then), and no window measures less.
   */
  function MeanSquareDeviation(s: seq<int>): (r: real)
    ensures r >= 0.0
    ensures s == [] ==> r == 0.0
  {
    if s == [] then 0.0 else SumSquaredDeviation(s, Mean(s)) / |s| as real
  }

  /** The squared deviations sum to zero exactly when every sample equals m. */
  lemma {:induction false} SumSquaredDeviationZero(s: seq<int>, m: real)
    ensures SumSquaredDeviation(s, m) == 0.0 <==> forall i :: 0 <= i < |s| ==> s[i] as real == m
  {
    if s != [] {
      SumSquaredDeviationZero(s[1..], m);
      var d := s[0] as real - m;
      if SumSquaredDeviation(s, m) == 0.0 {
        assert Square(d) == 0.0;
        forall i | 0 <= i < |s| ensures s[i] as real == m {
          if i > 0 {
            assert s[i] == s[1..][i - 1];
          }
        }
      }
      if forall i :: 0 <= i < |s| ==> s[i] as real == m {
        assert d == 0.0;
        forall i | 0 <= i < |s[1..]| ensures s[1..][i] as real == m {
          assert s[1..][i] == s[i + 1];
        }
      }
    }
  }

  /** A window measures 0 exactly when all its samples are equal (silence at any DC level). */
  lemma MeanSquareDeviationZeroIffConstant(s: seq<int>)
    ensures MeanSquareDeviation(s) == 0.0 <==> AllEqual(s)
  {
    if s != [] {
      var m := Mean(s);
      SumSquaredDeviationZero(s, m);
      if AllEqual(s) {
        MeanAllEqual(s);
      }
      if SumSquaredDeviation(s, m) == 0.0 {
        assert forall i :: 0 <= i < |s| ==> s[i] as real == m;
      }
      var n := |s| as real;
      assert MeanSquareDeviation(s) * n == SumSquaredDeviation(s, m);
    }
  }

  lemma {:induction false} SumSquaredDeviationShifted(s: seq<int>, m: real, c: int)
    ensures SumSquaredDeviation(Shifted(s, c), m + c as real) == SumSquaredDeviation(s, m)
  {
    if s != [] {
      SumSquaredDeviationShifted(s[1..], m, c);
      assert Shifted(s, c)[1..] == Shifted(s[1..], c);
    }
  }

  /** Adding the same constant to every sample does not change the measure. */
  lemma MeanSquareDeviationShiftInvariant(s: seq<int>, c: int)
    ensures MeanSquareDeviation(Shifted(s, c)) == MeanSquareDeviation(s)
  {
    if s != [] {
      MeanShifted(s, c);
      SumSquaredDeviationShifted(s, Mean(s), c);
    }
  }
}
