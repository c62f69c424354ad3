/** Resolution of a pointer position over the throughput chart to the index
    of a sample: the chart's horizontal placement inverted with Math.round,
    then clamped to the series. */
module Hover {
  import opened Common
  import opened Geometry

  /** Whether the code resolves pointer `x` to a definite sample. On a plot
      of zero width the pointer's offset is divided by zero: an infinity,
      which rounding keeps and the clamp saturates, except for a pointer
      exactly on the left padding (0/0) or a single sample (∞·0), where the
      result is NaN and no sample is named. */
  predicate Resolvable(x: real, len: nat, width: real) {
    len == 0 || PlotWidth(width) != 0.0 || (len >= 2 && x != PaddingLeft)
  }

  /** The sample under pointer `x` on a chart of `len` samples drawn on a
      canvas `width` wide; None when the chart is empty (the tooltip is
      hidden). */
  function ResolveHover(x: real, len: nat, width: real): (r: Option<nat>)
    requires Resolvable(x, len, width)
    ensures r.None? <==> len == 0
    ensures r.Some? ==> r.value < len
    ensures len == 1 ==> r == Some(0)
    ensures len >= 2 && PlotWidth(width) == 0.0 ==>
              r == Some(if x < PaddingLeft then 0 else len - 1)
  {
    if len == 0 then None
    else if PlotWidth(width) == 0.0 then
      Some(if x < PaddingLeft then 0 else len - 1)
    else
      var maxX := MaxInt(1, len);
      var idx := Round(((x - PaddingLeft) / PlotWidth(width)) * (maxX - 1) as real);
      Some(MaxInt(0, MinInt(len - 1, idx)) as nat)
  }

  /** A rounding error of at most one half, spread over `d` gaps of a plot
      `w` wide, moves a position by at most half a gap. */
  lemma HalfGap(e: real, d: real, w: real)
    requires -0.5 <= e <= 0.5 && d >= 1.0 && w > 0.0
    ensures Abs((e / d) * w) <= w / (2.0 * d)
  {
    var q := e / d;
    assert q * d == e;
    var g := w / (2.0 * d);
    assert g * (2.0 * d) == w;
    if q >= 0.0 {
      assert (0.5 - e) == (0.5 / d - q) * d;
      assert 0.5 / d - q >= 0.0;
      assert g - q * w == (0.5 / d - q) * w;
    } else {
      assert (0.5 + e) == (0.5 / d + q) * d;
      assert 0.5 / d + q >= 0.0;
      assert g + q * w == (0.5 / d + q) * w;
    }
  }

  /** Dividing by a positive width keeps the order. */
  lemma DivideKeepsOrder(a: real, b: real, w: real)
    requires w > 0.0 && a <= b
    ensures a / w <= b / w
  {
    assert (b / w - a / w) * w == b - a;
  }

  /** At least the whole of a non-negative extent. */
  lemma AtLeastWhole(u: real, d: real)
    requires u >= 1.0 && d >= 0.0
    ensures u * d >= d
  {
    assert u * d - d == (u - 1.0) * d;
  }

  /** Rounding a value at or above a whole number gives at least that number. */
  lemma RoundAtLeast(t: real, n: int)
    requires t >= n as real
    ensures Round(t) >= n
  {
  }

  /** For two or more samples and a pointer over the plot, the resolved
      sample is drawn within half a sample spacing of the pointer. */
  lemma HoverNearPointer(x: real, len: nat, width: real)
    requires len >= 2 && PlotWidth(width) > 0.0
    requires PaddingLeft <= x <= width - PaddingRight
    ensures ResolveHover(x, len, width).Some?
    ensures Abs(ChartX(ResolveHover(x, len, width).value, len, width) - x)
            <= PlotWidth(width) / (2.0 * (len - 1) as real)
  {
    var w, d := PlotWidth(width), (len - 1) as real;
    var u := (x - PaddingLeft) / w;
    RatioInUnit(x - PaddingLeft, w);
    assert u * w == x - PaddingLeft;
    var t := u * d;
    FractionOf(u, d);
    var idx := Round(t);
    assert 0 <= idx <= len - 1;
    assert (MaxInt(1, len) - 1) as real == d;
    assert ResolveHover(x, len, width).value == idx;
    assert ResolveHover(x, len, width) == Some(idx as nat);
    var e := idx as real - t;
    assert (idx as real / d) == u + e / d by {
      assert (e / d) * d == e;
      assert (idx as real / d) * d == idx as real;
    }
    assert ChartX(idx as nat, len, width) - x == (e / d) * w;
    HalfGap(e, d, w);
  }

  /** Resolving the position at which sample `i` is drawn gives back `i`:
      renderer and resolver use the same placement. */
  lemma HoverOfChartX(i: nat, len: nat, width: real)
    requires i < len && PlotWidth(width) > 0.0
    ensures ResolveHover(ChartX(i, len, width), len, width) == Some(i)
  {
    var w := PlotWidth(width);
    var q := Spread(MaxInt(1, len) - 1) as real;
    var f := i as real / q;
    var x := ChartX(i, len, width);
    assert x - PaddingLeft == f * w;
    assert (f * w) / w == f;
    var t := ((x - PaddingLeft) / w) * (MaxInt(1, len) - 1) as real;
    if len >= 2 {
      assert f * q == i as real;
      assert t == i as real;
    } else {
      assert t == 0.0;
    }
    assert Round(t) == i;
    assert ResolveHover(x, len, width).value == i;
  }

  /** A pointer left of the plot resolves to the first sample. */
  lemma HoverLeftOfPlot(x: real, len: nat, width: real)
    requires len >= 1 && PlotWidth(width) > 0.0
    requires x <= PaddingLeft
    ensures ResolveHover(x, len, width) == Some(0)
  {
    var w, d := PlotWidth(width), (MaxInt(1, len) - 1) as real;
    var u := (x - PaddingLeft) / w;
    DivideKeepsOrder(x - PaddingLeft, 0.0, w);
    assert u * d <= 0.0;
    assert Round(u * d) <= 0;
  }

  /** A pointer right of the plot resolves to the last sample. */
  lemma HoverRightOfPlot(x: real, len: nat, width: real)
    requires len >= 1 && PlotWidth(width) > 0.0
    requires x >= width - PaddingRight
    ensures ResolveHover(x, len, width) == Some(len - 1)
  {
    var w, d := PlotWidth(width), (MaxInt(1, len) - 1) as real;
    var u := (x - PaddingLeft) / w;
    DivideKeepsOrder(w, x - PaddingLeft, w);
    assert w / w == 1.0;
    AtLeastWhole(u, d);
    RoundAtLeast(u * d, len - 1);
  }
}
