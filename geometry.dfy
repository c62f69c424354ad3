/** Pixel placement of samples on the throughput chart and on the CPU
    sparkline: evenly spread horizontal positions with a guarded divisor,
    and vertical scales with a fixed floor so that small values do not
    blow up the plot. */
module Geometry {
  import opened Common
  import opened Statistics

  /** Chart insets: 8 px each side, the baseline 20 px above the bottom and
      28 px of height kept out of the plot (so its top is 8 px down). */
  const PaddingLeft: real := 8.0
  const PaddingRight: real := 8.0
  const BaselineGap: real := 20.0
  const TopReserve: real := 28.0
  /** Sparkline inset on every side. */
  const SparkInset: real := 3.0

  /** JavaScript's `n || 1` on an integer divisor: zero becomes one. */
  function Spread(n: int): (d: int)
    ensures d != 0
    ensures n != 0 ==> d == n
  {
    if n == 0 then 1 else n
  }

  /** `chartW`: the canvas width less both paddings. */
  function PlotWidth(width: real): real { width - PaddingLeft - PaddingRight }

  /** `chartH`: the canvas height less the reserved band. */
  function PlotHeight(height: real): real { height - TopReserve }

  /** Horizontal position of sample `i` of a series of `len` on the chart. */
  function ChartX(i: nat, len: nat, width: real): real {
    PaddingLeft + (i as real / Spread(MaxInt(1, len) - 1) as real) * PlotWidth(width)
  }

  /** `Math.max(10, Math.max(...data, 100))`: the chart's vertical scale. */
  function ChartScale(data: seq<real>): (m: real)
    ensures m >= 100.0
    ensures forall k :: 0 <= k < |data| ==> data[k] <= m
    ensures m == 100.0 || m in data
  {
    var top := SeqMax(data + [100.0]);
    assert forall k :: 0 <= k < |data| ==> data[k] == (data + [100.0])[k];
    assert (data + [100.0])[|data|] == 100.0;
    MaxReal(10.0, top)
  }

  /** Vertical position of a value on the chart. */
  function ChartY(v: real, data: seq<real>, height: real): real {
    height - BaselineGap - (v / ChartScale(data)) * PlotHeight(height)
  }

  /** Horizontal position of sample `i` of `len` on the sparkline. */
  function SparkX(i: nat, len: nat, width: real): real {
    (i as real / Spread(len - 1) as real) * (width - 2.0 * SparkInset) + SparkInset
  }

  /** `Math.max(10, ...samples)`: the sparkline's vertical scale. */
  function SparkScale(s: seq<real>): (m: real)
    ensures m >= 10.0
    ensures forall k :: 0 <= k < |s| ==> s[k] <= m
    ensures m == 10.0 || m in s
  {
    var top := SeqMax([10.0] + s);
    assert forall k :: 0 <= k < |s| ==> s[k] == ([10.0] + s)[k + 1];
    top
  }

  /** Vertical position of a value on the sparkline. */
  function SparkY(v: real, s: seq<real>, height: real): real {
    height - SparkInset - (v / SparkScale(s)) * (height - 2.0 * SparkInset)
  }

  /** A fraction `f` in [0, 1] of a non-negative extent stays inside it. */
  lemma FractionOf(f: real, extent: real)
    requires 0.0 <= f <= 1.0 && extent >= 0.0
    ensures 0.0 <= f * extent <= extent
  {
    assert extent - f * extent == (1.0 - f) * extent;
  }

  /** A value between 0 and a positive bound, over that bound, is in [0, 1]. */
  lemma RatioInUnit(v: real, m: real)
    requires m > 0.0 && 0.0 <= v <= m
    ensures 0.0 <= v / m <= 1.0
  {
    var a := v / m;
    assert a * m == v;
    assert (1.0 - a) * m == m - v;
  }

  /** An index of a series over its guarded divisor is a fraction in [0, 1]. */
  lemma IndexFraction(i: nat, len: nat, d: int)
    requires i < len && (d == MaxInt(1, len) - 1 || d == len - 1)
    ensures 0.0 <= i as real / Spread(d) as real <= 1.0
  {
    var q := Spread(d) as real;
    RatioInUnit(i as real, q);
  }

  /** Every sample of the chart is placed inside the plot. */
  lemma ChartXInPlot(i: nat, len: nat, width: real)
    requires i < len && PlotWidth(width) >= 0.0
    ensures PaddingLeft <= ChartX(i, len, width) <= width - PaddingRight
  {
    var f := i as real / Spread(MaxInt(1, len) - 1) as real;
    IndexFraction(i, len, MaxInt(1, len) - 1);
    FractionOf(f, PlotWidth(width));
    assert ChartX(i, len, width) == PaddingLeft + f * PlotWidth(width);
  }

  /** The first sample sits on the left edge, also when it is the only one
      (the guarded divisor is 1 there), and for two or more samples the last
      sits on the right edge. */
  lemma ChartXEdges(len: nat, width: real)
    requires len >= 1
    ensures ChartX(0, len, width) == PaddingLeft
    ensures len >= 2 ==> ChartX(len - 1, len, width) == width - PaddingRight
  {
  }

  /** Samples are spread evenly, left to right, one plot width over
      `len - 1` apart. */
  lemma ChartXStep(i: nat, len: nat, width: real)
    requires i + 1 < len
    ensures ChartX(i + 1, len, width) - ChartX(i, len, width)
            == PlotWidth(width) / (len - 1) as real
  {
    var d := (len - 1) as real;
    assert Spread(MaxInt(1, len) - 1) as real == d;
    assert ((i + 1) as real / d) - (i as real / d) == 1.0 / d;
    assert ((i + 1) as real / d) * PlotWidth(width) - (i as real / d) * PlotWidth(width)
        == (1.0 / d) * PlotWidth(width);
  }

  /** A value between 0 and the scale is drawn between the plot's top and
      its baseline. */
  lemma ChartYInBand(v: real, data: seq<real>, height: real)
    requires PlotHeight(height) >= 0.0
    requires 0.0 <= v <= ChartScale(data)
    ensures TopReserve - BaselineGap <= ChartY(v, data, height) <= height - BaselineGap
  {
    var m := ChartScale(data);
    RatioInUnit(v, m);
    FractionOf(v / m, PlotHeight(height));
  }

  /** Every non-negative sample of the chart's own data lies in that band,
      because the scale is at least every sample. */
  lemma ChartSampleInBand(data: seq<real>, k: nat, height: real)
    requires k < |data| && 0.0 <= data[k]
    requires PlotHeight(height) >= 0.0
    ensures TopReserve - BaselineGap <= ChartY(data[k], data, height) <= height - BaselineGap
  {
    ChartYInBand(data[k], data, height);
  }

  /** Every sample of the sparkline is placed within the insets; a single
      sample sits at the left inset, with no division by zero. */
  lemma SparkXInPlot(i: nat, len: nat, width: real)
    requires i < len && width >= 2.0 * SparkInset
    ensures SparkInset <= SparkX(i, len, width) <= width - SparkInset
    ensures len == 1 ==> SparkX(i, len, width) == SparkInset
  {
    var f, e := i as real / Spread(len - 1) as real, width - 2.0 * SparkInset;
    IndexFraction(i, len, len - 1);
    FractionOf(f, e);
    assert SparkX(i, len, width) == f * e + SparkInset;
  }

  /** Horizontal position of the sparkline's marker, computed on its own
      from the length of the history. */
  function SparkMarkerX(len: nat, width: real): real {
    ((len - 1) as real / Spread(len - 1) as real) * (width - 2.0 * SparkInset) + SparkInset
  }

  /** The marker sits on the newest sample of the line. */
  lemma SparkMarkerOnLast(len: nat, width: real)
    requires len >= 1
    ensures SparkMarkerX(len, width) == SparkX(len - 1, len, width)
  {
  }

  /** With two or more samples the newest sits on the right inset. */
  lemma SparkLastAtRight(len: nat, width: real)
    requires len >= 2
    ensures SparkX(len - 1, len, width) == width - SparkInset
  {
  }

  /** A value between 0 and the scale is drawn within the sparkline's
      vertical insets. */
  lemma SparkYInBand(v: real, s: seq<real>, height: real)
    requires height >= 2.0 * SparkInset
    requires 0.0 <= v <= SparkScale(s)
    ensures SparkInset <= SparkY(v, s, height) <= height - SparkInset
  {
    var m := SparkScale(s);
    RatioInUnit(v, m);
    FractionOf(v / m, height - 2.0 * SparkInset);
  }

  /** Every non-negative sample of the sparkline's own history lies there,
      because the scale is at least every sample. */
  lemma SparkSampleInBand(s: seq<real>, k: nat, height: real)
    requires k < |s| && 0.0 <= s[k]
    requires height >= 2.0 * SparkInset
    ensures SparkInset <= SparkY(s[k], s, height) <= height - SparkInset
  {
    SparkYInBand(s[k], s, height);
  }
}
