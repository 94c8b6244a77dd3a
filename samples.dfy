/** A window of integer samples and Python's `sum` over it. */
module Samples {

  /** Python's `sum(buffer)`. */
  function Sum(s: seq<int>): int
  {
    if s == [] then 0 else s[0] + Sum(s[1..])
  }

  /** The arithmetic mean, exact. */
  function Mean(s: seq<int>): real
    requires |s| > 0
  {
    Sum(s) as real / |s| as real
  }

  /** Every sample added to the constant c. */
  function Shifted(s: seq<int>, c: int): (r: seq<int>)
    ensures |r| == |s| && forall i :: 0 <= i < |s| ==> r[i] == s[i] + c
  {
    seq(|s|, i requires 0 <= i < |s| => s[i] + c)
  }

  predicate AllEqual(s: seq<int>)
  {
    forall i, j :: 0 <= i < |s| && 0 <= j < |s| ==> s[i] == s[j]
  }

  lemma {:induction false} SumShifted(s: seq<int>, c: int)
    ensures Sum(Shifted(s, c)) == Sum(s) + |s| * c
  {
    if s != [] {
      SumShifted(s[1..], c);
      assert Shifted(s, c)[1..] == Shifted(s[1..], c);
      assert |s| * c == (|s| - 1) * c + c;
    }
  }

  /** The sum of n copies of v is n * v. */
  lemma {:induction false} SumAllEqual(s: seq<int>)
    requires |s| > 0 && AllEqual(s)
    ensures Sum(s) == |s| * s[0]
  {
    if |s| > 1 {
      SumAllEqual(s[1..]);
      assert |s| * s[0] == (|s| - 1) * s[0] + s[0];
    }
  }

  /** The mean of equal samples is that sample. */
  lemma MeanAllEqual(s: seq<int>)
    requires |s| > 0 && AllEqual(s)
    ensures Mean(s) == s[0] as real
  {
    SumAllEqual(s);
    assert Sum(s) as real == |s| as real * s[0] as real;
  }

  /** Shifting every sample by c shifts the mean by c. */
  lemma MeanShifted(s: seq<int>, c: int)
    requires |s| > 0
    ensures Mean(Shifted(s, c)) == Mean(s) + c as real
  {
    SumShifted(s, c);
    var n := |s| as real;
    assert Sum(Shifted(s, c)) as real == Sum(s) as real + n * c as real;
    assert (Sum(s) as real + n * c as real) / n == Sum(s) as real / n + c as real;
  }
}
