/**
 * The point computations of `draw_frequency_plot` and `draw_time_plot`: where
 * each plotted point lands on the 128 x 64 display, and the line segments
 * between consecutive points. The `display.line` calls become the returned
 * list of segments.
 */
module Plot {
  import opened Config
  import opened Arith

  datatype Point = Point(x: int, y: int)

  /** One line drawn on the display, from one point to the next. */
  datatype Segment = Segment(from: Point, to: Point)

  /** The left edge of both graphs. */
  const GraphStartX: int := 9
  /** The baseline row of both graphs, six rows above the bottom of the screen. */
  const GraphBottomY: int := ScreenHeight - 6
  /** FFT bins per plotted column: half the window's bins shared among the columns. */
  const BinsPerPoint: nat := (SampleCount / 2) / NumGraphPointsFft

  // ---------------------------------------------------------------------------
  // Arithmetic helpers

  /** Python's int() of the true quotient a / b for b > 0: rounded toward zero. */
  function TruncDiv(a: int, b: int): (q: int)
    requires b > 0
    ensures a >= 0 ==> 0 <= q && q * b <= a < (q + 1) * b
    ensures a < 0 ==> q <= 0 && (-q) * b <= -a < (-q + 1) * b
  {
    if a >= 0 then
      DivBounds(a, b);
      a / b
    else
      DivBounds(-a, b);
      -((-a) / b)
  }

  // ---------------------------------------------------------------------------
  // The frequency plot

  /**
   * The running maximum of the inner loop of lines 88-91: `max_mag` starts at 0
   * and is replaced by `mags[j]` whenever that is strictly larger, for j in [lo, hi).
   * It is the largest magnitude of the range, or 0 when there is none above 0.
   */
  function Peak(mags: seq<real>, lo: nat, hi: nat): (r: real)
    requires lo <= hi <= |mags|
    ensures r >= 0.0
    ensures forall j :: lo <= j < hi ==> mags[j] <= r
    ensures r == 0.0 || exists j :: lo <= j < hi && mags[j] == r
    decreases hi - lo
  {
    if lo == hi then 0.0
    else
      var m := Peak(mags, lo, hi - 1);
      if mags[hi - 1] > m then mags[hi - 1] else m
  }

  /** Lines 85-91: the first bin of column i, skipping bin 0, and its end. */
  function ColumnStart(i: nat): nat
  {
    if i * BinsPerPoint < 1 then 1 else i * BinsPerPoint
  }

  function ColumnEnd(i: nat): nat
  {
    i * BinsPerPoint + BinsPerPoint
  }

  /** The peak magnitude of column i. */
  function ColumnPeak(mags: seq<real>, i: nat): real
    requires ColumnEnd(i) <= |mags|
  {
    if ColumnStart(i) <= ColumnEnd(i) then Peak(mags, ColumnStart(i), ColumnEnd(i)) else 0.0
  }

  /**
   * With 64 samples and 32 columns each column covers one bin: column 0 is
   * always 0 (the DC bin is never read) and column i >= 1 is |X[i]|.
   */
  lemma ColumnPeakIsBin(mags: seq<real>, i: nat)
    requires i < NumGraphPointsFft && NumGraphPointsFft <= |mags|
    requires forall j :: 0 <= j < |mags| ==> mags[j] >= 0.0
    ensures i == 0 ==> ColumnPeak(mags, i) == 0.0
    ensures i >= 1 ==> ColumnPeak(mags, i) == mags[i]
  {
  }

  /** Line 93: column i spread over 118 pixels in 31 steps from x = 9, rounded toward zero. */
  function FrequencyX(i: nat): int
  {
    GraphStartX + TruncDiv(i * (ScreenWidth - 10), NumGraphPointsFft - 1)
  }

  /** Lines 94-96: the column height, peak over 200 rounded down, at most the graph height. */
  function Height(peak: real): int
    requires peak >= 0.0
  {
    var h := (peak / MagnitudeScaleDisplay as real).Floor;
    if h > GraphBottomY then GraphBottomY else h
  }

  /**
   * A column is h pixels tall when its peak lies in [200 h, 200 (h + 1)); every
   * peak of at least 58 * 200 is drawn at the full 58 pixels.
   */
  lemma HeightMeaning(peak: real)
    requires peak >= 0.0
    ensures 0 <= Height(peak) <= GraphBottomY
    ensures Height(peak) < GraphBottomY ==>
      (Height(peak) * 200) as real <= peak < ((Height(peak) + 1) * 200) as real
    ensures Height(peak) == GraphBottomY <==> peak >= (GraphBottomY * 200) as real
  {
    var f := (peak / 200.0).Floor;
    assert f as real <= peak / 200.0 < f as real + 1.0;
    assert (f * 200) as real == f as real * 200.0;
    assert ((f + 1) * 200) as real == (f as real + 1.0) * 200.0;
  }

  /** A louder column is never drawn shorter. */
  lemma HeightMonotone(p: real, q: real)
    requires 0.0 <= p <= q
    ensures Height(p) <= Height(q)
  {
    var f, g := (p / 200.0).Floor, (q / 200.0).Floor;
    assert f as real <= p / 200.0 <= q / 200.0 < g as real + 1.0;
  }

  /** The 32 column positions run from 9 to 127: on screen and left to right. */
  lemma FrequencyXInRange(i: nat)
    requires i < NumGraphPointsFft
    ensures GraphStartX <= FrequencyX(i) < ScreenWidth
    ensures i == NumGraphPointsFft - 1 ==> FrequencyX(i) == ScreenWidth - 1
  {
    DivAtMost(i * 118, 31, 118);
  }

  lemma FrequencyXIncreasing(i: nat)
    ensures FrequencyX(i) < FrequencyX(i + 1)
  {
    DivAtLeast((i + 1) * 118, 31, i * 118 / 31 + 1);
  }

  /** Every column's point lies on the screen, inside the graph's rows. */
  lemma FrequencyPointOnScreen(mags: seq<real>, i: nat)
    requires i < NumGraphPointsFft && NumGraphPointsFft * BinsPerPoint <= |mags|
    requires forall j :: 0 <= j < |mags| ==> mags[j] >= 0.0
    ensures 0 <= FrequencyX(i) < ScreenWidth
    ensures 0 <= GraphBottomY - Height(ColumnPeak(mags, i)) <= GraphBottomY
  {
    FrequencyXInRange(i);
    HeightMeaning(ColumnPeak(mags, i));
  }

  /** Lines 84-97: the points of the spectrum plot. */
  method FrequencyPoints(mags: seq<real>) returns (points: seq<Point>)
    requires NumGraphPointsFft * BinsPerPoint <= |mags|
    requires forall j :: 0 <= j < |mags| ==> mags[j] >= 0.0
    ensures |points| == NumGraphPointsFft
    ensures forall i :: 0 <= i < |points| ==>
      points[i] == Point(FrequencyX(i), GraphBottomY - Height(ColumnPeak(mags, i)))
  {
    points := [];
    var i := 0;
    while i < NumGraphPointsFft
      invariant 0 <= i <= NumGraphPointsFft
      invariant |points| == i
      invariant forall p :: 0 <= p < i ==>
        points[p] == Point(FrequencyX(p), GraphBottomY - Height(ColumnPeak(mags, p)))
    {
      var start := i * BinsPerPoint;
      var end := start + BinsPerPoint;
      var maxMag := 0.0;
      var j := if 1 > start then 1 else start;
      while j < end
        invariant ColumnStart(i) <= j <= end
        invariant maxMag == Peak(mags, ColumnStart(i), j)
      {
        var mag := mags[j];
        if mag > maxMag {
          maxMag := mag;
        }
        j := j + 1;
      }
      var x := GraphStartX + TruncDiv(i * (ScreenWidth - 10), NumGraphPointsFft - 1);
      var h := (maxMag / MagnitudeScaleDisplay as real).Floor;
      if h > GraphBottomY {
        h := GraphBottomY;
      }
      points := points + [Point(x, GraphBottomY - h)];
      i := i + 1;
    }
  }

  // ---------------------------------------------------------------------------
  // The time plot

  /** Line 110: sample i spread over 118 pixels in 63 steps from x = 9, rounded toward zero. */
  function TimeX(i: nat): int
  {
    GraphStartX + TruncDiv(i * (ScreenWidth - 10), SampleCount - 1)
  }

  /** Line 111: the reading as a fraction of full scale, times 58 rounded toward zero, up from row 58. */
  function TimeY(sample: int): int
  {
    GraphBottomY - TruncDiv(sample * GraphBottomY, AdcMax)
  }

  /** The 64 sample positions run from 9 to 127. */
  lemma TimeXInRange(i: nat)
    requires i < SampleCount
    ensures GraphStartX <= TimeX(i) < ScreenWidth
    ensures i == SampleCount - 1 ==> TimeX(i) == ScreenWidth - 1
  {
    DivAtMost(i * 118, 63, 118);
  }

  lemma TimeXIncreasing(i: nat)
    ensures TimeX(i) < TimeX(i + 1)
  {
    DivAtLeast((i + 1) * 118, 63, i * 118 / 63 + 1);
  }

  /**
   * An ADC reading in [0, 65535] lands on the graph rows [0, 58]; a larger
   * reading is drawn no lower, and only full scale reaches the top row.
   */
  lemma TimeYInRange(sample: int)
    requires 0 <= sample <= AdcMax
    ensures 0 <= TimeY(sample) <= GraphBottomY
    ensures TimeY(sample) == 0 <==> sample == AdcMax
    ensures sample == 0 ==> TimeY(sample) == GraphBottomY
  {
    DivAtMost(sample * 58, 65535, 58);
    if sample < AdcMax {
      DivAtMost(sample * 58, 65535, 57);
    }
  }

  lemma TimeYAntitone(s: int, t: int)
    requires 0 <= s <= t
    ensures TimeY(t) <= TimeY(s)
  {
    DivMonotone(s * 58, t * 58, 65535);
  }

  /** Lines 108-112: one point per sample of the buffer, whatever its length. */
  method TimePoints(samples: seq<int>) returns (points: seq<Point>)
    ensures |points| == |samples|
    ensures forall i :: 0 <= i < |points| ==> points[i] == Point(TimeX(i), TimeY(samples[i]))
  {
    points := [];
    var i := 0;
    while i < |samples|
      invariant 0 <= i <= |samples|
      invariant |points| == i
      invariant forall p :: 0 <= p < i ==> points[p] == Point(TimeX(p), TimeY(samples[p]))
    {
      var x := GraphStartX + TruncDiv(i * (ScreenWidth - 10), SampleCount - 1);
      var y := GraphBottomY - TruncDiv(samples[i] * GraphBottomY, AdcMax);
      points := points + [Point(x, y)];
      i := i + 1;
    }
  }

  // ---------------------------------------------------------------------------
  // The lines between points

  /** segs joins each point to the next one, in order. */
  predicate ConnectsConsecutive(points: seq<Point>, segs: seq<Segment>)
  {
    |segs| == (if |points| == 0 then 0 else |points| - 1) &&
    forall i :: 0 <= i < |segs| ==> segs[i] == Segment(points[i], points[i + 1])
  }

  /** Lines 99-100 and 114-115: one line per pair of consecutive points. */
  method Polyline(points: seq<Point>) returns (segs: seq<Segment>)
    ensures ConnectsConsecutive(points, segs)
  {
    segs := [];
    var i := 0;
    while i < |points| - 1
      invariant 0 <= i && (i <= |points| - 1 || i == 0)
      invariant |segs| == i
      invariant forall p :: 0 <= p < i ==> segs[p] == Segment(points[p], points[p + 1])
    {
      segs := segs + [Segment(points[i], points[i + 1])];
      i := i + 1;
    }
  }

  /** Consecutive segments share their end points: the segments form one unbroken line. */
  lemma PolylineIsChain(points: seq<Point>, segs: seq<Segment>, i: nat)
    requires ConnectsConsecutive(points, segs) && i + 1 < |segs|
    ensures segs[i].to == segs[i + 1].from
  {
    assert segs[i] == Segment(points[i], points[i + 1]);
    assert segs[i + 1] == Segment(points[i + 1], points[i + 2]);
  }

  /** `draw_frequency_plot`, without the axes and labels. */
  method DrawFrequencyPlot(mags: seq<real>) returns (points: seq<Point>, segs: seq<Segment>)
    requires NumGraphPointsFft * BinsPerPoint <= |mags|
    requires forall j :: 0 <= j < |mags| ==> mags[j] >= 0.0
    ensures |points| == NumGraphPointsFft && |segs| == NumGraphPointsFft - 1
    ensures forall i :: 0 <= i < |points| ==>
      points[i] == Point(FrequencyX(i), GraphBottomY - Height(ColumnPeak(mags, i)))
    ensures forall i :: 0 <= i < |points| ==>
      0 <= points[i].x < ScreenWidth && 0 <= points[i].y <= GraphBottomY
    ensures ConnectsConsecutive(points, segs)
    ensures forall i :: 0 <= i < |segs| ==> segs[i].from.x < segs[i].to.x
  {
    points := FrequencyPoints(mags);
    forall i | 0 <= i < |points|
      ensures 0 <= points[i].x < ScreenWidth && 0 <= points[i].y <= GraphBottomY
    {
      FrequencyPointOnScreen(mags, i);
    }
    segs := Polyline(points);
    forall i | 0 <= i < |segs|
      ensures segs[i].from.x < segs[i].to.x
    {
      FrequencyXIncreasing(i);
    }
  }

  /** `draw_time_plot`, without the axes and labels. */
  method DrawTimePlot(samples: seq<int>) returns (points: seq<Point>, segs: seq<Segment>)
    ensures |points| == |samples|
    ensures forall i :: 0 <= i < |points| ==> points[i] == Point(TimeX(i), TimeY(samples[i]))
    ensures (forall i :: 0 <= i < |samples| ==> 0 <= samples[i] <= AdcMax) ==>
      forall i :: 0 <= i < |points| ==> 0 <= points[i].y <= GraphBottomY
    ensures |samples| <= SampleCount ==> forall i :: 0 <= i < |points| ==> 0 <= points[i].x < ScreenWidth
    ensures ConnectsConsecutive(points, segs)
    ensures forall i :: 0 <= i < |segs| ==> segs[i].from.x < segs[i].to.x
  {
    points := TimePoints(samples);
    forall i | 0 <= i < |points| && 0 <= samples[i] <= AdcMax
      ensures 0 <= points[i].y <= GraphBottomY
    {
      TimeYInRange(samples[i]);
    }
    if |samples| <= SampleCount {
      forall i | 0 <= i < |points|
        ensures 0 <= points[i].x < ScreenWidth
      {
        TimeXInRange(i);
      }
    }
    segs := Polyline(points);
    forall i | 0 <= i < |segs|
      ensures segs[i].from.x < segs[i].to.x
    {
      TimeXIncreasing(i);
    }
  }
}
