/** The point sequences the page traces on its canvases: the CPU sparkline
    with a marker on its newest sample, and the throughput chart's line, the
    area fill under it and the highlighted hover point. Only the coordinates
    are modelled; strokes, colours and gradients are not. */
module Render {
  import opened Common
  import opened Geometry

  datatype Point = Point(x: real, y: real)

  predicate InBox(p: Point, left: real, right: real, top: real, bottom: real) {
    left <= p.x <= right && top <= p.y <= bottom
  }

  predicate NonNegative(s: seq<real>) {
    forall k :: 0 <= k < |s| ==> 0.0 <= s[k]
  }

  /** The sparkline path, one point per sample, and the marker on the newest
      sample; nothing for an empty history. */
  method DrawSparkline(samples: seq<real>, width: real, height: real)
    returns (line: seq<Point>, marker: Option<Point>)
    ensures |line| == |samples|
    ensures forall i :: 0 <= i < |samples| ==>
              line[i] == Point(SparkX(i, |samples|, width), SparkY(samples[i], samples, height))
    ensures marker.None? <==> |samples| == 0
    ensures marker.Some? ==> marker.value == line[|line| - 1]
    ensures width >= 2.0 * SparkInset && height >= 2.0 * SparkInset && NonNegative(samples) ==>
              forall i :: 0 <= i < |line| ==>
                InBox(line[i], SparkInset, width - SparkInset, SparkInset, height - SparkInset)
  {
    line, marker := [], None;
    if |samples| == 0 {
      return;
    }
    var n := |samples|;
    var i := 0;
    while i < n
      invariant 0 <= i <= n
      invariant |line| == i
      invariant forall k :: 0 <= k < i ==>
                  line[k] == Point(SparkX(k, n, width), SparkY(samples[k], samples, height))
    {
      line := line + [Point(SparkX(i, n, width), SparkY(samples[i], samples, height))];
      i := i + 1;
    }
    SparkMarkerOnLast(n, width);
    marker := Some(Point(SparkMarkerX(n, width), SparkY(samples[n - 1], samples, height)));
    if width >= 2.0 * SparkInset && height >= 2.0 * SparkInset && NonNegative(samples) {
      forall k | 0 <= k < n
        ensures InBox(line[k], SparkInset, width - SparkInset, SparkInset, height - SparkInset)
      {
        SparkXInPlot(k, n, width);
        SparkSampleInBand(samples, k, height);
      }
    }
  }

  /** The chart's line through every sample, the closed area under it (the
      line, then back along the baseline; nothing for empty data) and the
      hover point, drawn only when `hoverIndex` names a sample. */
  method DrawChart(data: seq<real>, hoverIndex: int, width: real, height: real)
    returns (line: seq<Point>, fill: seq<Point>, hover: Option<Point>)
    ensures |line| == |data|
    ensures forall i :: 0 <= i < |data| ==>
              line[i] == Point(ChartX(i, |data|, width), ChartY(data[i], data, height))
    ensures fill == if |data| == 0 then [] else
              line + [Point(width - PaddingRight, height - BaselineGap),
                      Point(PaddingLeft, height - BaselineGap)]
    ensures hover.Some? <==> 0 <= hoverIndex < |data|
    ensures hover.Some? ==> hover.value == line[hoverIndex]
    ensures PlotWidth(width) >= 0.0 && PlotHeight(height) >= 0.0 && NonNegative(data) ==>
              forall i :: 0 <= i < |line| ==>
                InBox(line[i], PaddingLeft, width - PaddingRight,
                      TopReserve - BaselineGap, height - BaselineGap)
  {
    var n := |data|;
    line := [];
    var i := 0;
    while i < n
      invariant 0 <= i <= n
      invariant |line| == i
      invariant forall k :: 0 <= k < i ==>
                  line[k] == Point(ChartX(k, n, width), ChartY(data[k], data, height))
    {
      line := line + [Point(ChartX(i, n, width), ChartY(data[i], data, height))];
      i := i + 1;
    }
    fill := [];
    if n > 0 {
      var j := 0;
      while j < n
        invariant 0 <= j <= n
        invariant fill == line[..j]
      {
        fill := fill + [Point(ChartX(j, n, width), ChartY(data[j], data, height))];
        j := j + 1;
      }
      assert line[..n] == line;
      fill := fill + [Point(width - PaddingRight, height - BaselineGap),
                      Point(PaddingLeft, height - BaselineGap)];
    }
    hover := None;
    if hoverIndex >= 0 && hoverIndex < n {
      hover := Some(Point(ChartX(hoverIndex, n, width), ChartY(data[hoverIndex], data, height)));
    }
    if PlotWidth(width) >= 0.0 && PlotHeight(height) >= 0.0 && NonNegative(data) {
      forall k | 0 <= k < n
        ensures InBox(line[k], PaddingLeft, width - PaddingRight,
                      TopReserve - BaselineGap, height - BaselineGap)
      {
        ChartXInPlot(k, n, width);
        ChartSampleInBand(data, k, height);
      }
    }
  }
}
