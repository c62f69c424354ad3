/** The CPU page's state machine: the feed callback that fills the two
    histories and, unless paused, the gauge and its centre label; the pause
    toggles on the button and the Space key; and the hover state of the
    throughput chart. */
module CpuPage {
  import opened Common
  import opened History
  import opened Statistics
  import opened Gauges
  import opened Hover

  /** `CPU_HISTORY_MAX`. */
  const CpuHistoryMax: nat := 120
  /** Capacity of the throughput chart's data. */
  const ThroughputCapacity: nat := 60

  /** A non-null feed payload; either field may be missing. */
  datatype Payload = Payload(cpu: Option<real>, throughput: Option<real>)

  /** The chart tooltip: the resolved sample and its value. */
  datatype Tip = Tip(index: nat, value: real)

  /** The gauge tooltip: the caption's rounded CPU value, the window
      statistics and whether updates are paused. */
  datatype CpuTip = CpuTip(caption: int, stats: Option<Stats>, paused: bool)

  class Dashboard {
    const cpuHist: BoundedSeries
    const chart: BoundedSeries
    const gauge: Gauge
    var paused: bool
    /** The rounded CPU value shown in the gauge's centre (and caption). */
    var centerLabel: int
    var offline: bool
    /** The min/avg/max row under the gauge; None shows the placeholders. */
    var shownStats: Option<Stats>
    /** The throughput badge; None shows its initial placeholder. */
    var badge: Option<real>
    /** The last resolved hover index, or -1 for none. */
    var lastHoverIndex: int

    ghost predicate Valid()
      reads this, cpuHist, chart, gauge
    {
      && cpuHist != chart
      && cpuHist.capacity == CpuHistoryMax && chart.capacity == ThroughputCapacity
      && cpuHist.Valid() && chart.Valid() && gauge.Valid()
      && shownStats == WindowStats(cpuHist.samples)
      && -1 <= lastHoverIndex < |chart.samples|
    }

    constructor ()
      ensures Valid()
      ensures fresh(cpuHist) && fresh(chart) && fresh(gauge)
      ensures cpuHist.samples == [] && chart.samples == []
      ensures !paused && !offline && gauge.value == 0.0 && centerLabel == 0
      ensures shownStats == None && badge == None && lastHoverIndex == -1
    {
      cpuHist := new BoundedSeries(CpuHistoryMax);
      chart := new BoundedSeries(ThroughputCapacity);
      gauge := new Gauge();
      paused := false;
      centerLabel := 0;
      offline := false;
      shownStats := None;
      badge := None;
      lastHoverIndex := -1;
    }

    /** The feed callback. A null payload only marks the page offline.
        Otherwise a missing field counts as 0, both histories always take
        the new sample and the statistics are recomputed, while the gauge
        and centre label follow the CPU value only when not paused. */
    method Ingest(payload: Option<Payload>)
      requires Valid()
      modifies this, cpuHist, chart, gauge
      ensures Valid()
      ensures paused == old(paused) && lastHoverIndex == old(lastHoverIndex)
      ensures payload.None? ==>
                && offline
                && cpuHist.samples == old(cpuHist.samples)
                && chart.samples == old(chart.samples)
                && gauge.value == old(gauge.value)
                && centerLabel == old(centerLabel)
                && shownStats == old(shownStats) && badge == old(badge)
      ensures payload.Some? ==>
                var cpu := payload.value.cpu.GetOr(0.0);
                var tp := payload.value.throughput.GetOr(0.0);
                && !offline
                && cpuHist.samples == Window(old(cpuHist.samples) + [cpu], CpuHistoryMax)
                && chart.samples == Window(old(chart.samples) + [tp], ThroughputCapacity)
                && badge == Some(tp)
                && (if old(paused)
                    then gauge.value == old(gauge.value) && centerLabel == old(centerLabel)
                    else gauge.value == Clamp(cpu) && centerLabel == Round(cpu))
    {
      if payload.None? {
        offline := true;
        return;
      }
      offline := false;
      var cpuVal := payload.value.cpu.GetOr(0.0);
      RecordCpu(cpuVal);
      ShowCpu(cpuVal);
      var tval := payload.value.throughput.GetOr(0.0);
      RecordThroughput(tval);
    }

    /** Pushes a CPU sample into its history and recomputes the statistics
        row from the whole new window. */
    method RecordCpu(v: real)
      requires Valid()
      modifies this, cpuHist
      ensures Valid()
      ensures cpuHist.samples == Window(old(cpuHist.samples) + [v], CpuHistoryMax)
      ensures shownStats == WindowStats(cpuHist.samples)
      ensures paused == old(paused) && centerLabel == old(centerLabel) && offline == old(offline)
      ensures badge == old(badge) && lastHoverIndex == old(lastHoverIndex)
    {
      cpuHist.Push(v);
      shownStats := WindowStats(cpuHist.samples);
    }

    /** Moves the gauge and the centre label to a CPU sample, unless paused,
        in which case both keep the value they had. */
    method ShowCpu(v: real)
      requires Valid()
      modifies this, gauge
      ensures Valid()
      ensures old(paused) ==> gauge.value == old(gauge.value) && centerLabel == old(centerLabel)
      ensures !old(paused) ==> gauge.value == Clamp(v) && centerLabel == Round(v)
      ensures paused == old(paused) && offline == old(offline)
      ensures shownStats == old(shownStats) && badge == old(badge)
      ensures lastHoverIndex == old(lastHoverIndex)
    {
      if !paused {
        gauge.SetValue(v);
        centerLabel := Round(v);
      }
    }

    /** Pushes a throughput sample into the chart data and shows it on the
        badge. */
    method RecordThroughput(v: real)
      requires Valid()
      modifies this, chart
      ensures Valid()
      ensures chart.samples == Window(old(chart.samples) + [v], ThroughputCapacity)
      ensures badge == Some(v)
      ensures paused == old(paused) && centerLabel == old(centerLabel) && offline == old(offline)
      ensures shownStats == old(shownStats) && lastHoverIndex == old(lastHoverIndex)
    {
      chart.Push(v);
      badge := Some(v);
    }

    /** The pause button: flips `paused` and nothing else. */
    method TogglePause()
      requires Valid()
      modifies this
      ensures Valid()
      ensures paused == !old(paused)
      ensures centerLabel == old(centerLabel) && offline == old(offline)
      ensures shownStats == old(shownStats) && badge == old(badge)
      ensures lastHoverIndex == old(lastHoverIndex)
    {
      paused := !paused;
    }

    /** The keyboard handler: Space toggles the pause, other keys do nothing. */
    method KeyDown(code: string)
      requires Valid()
      modifies this
      ensures Valid()
      ensures paused == (if code == "Space" then !old(paused) else old(paused))
      ensures centerLabel == old(centerLabel) && offline == old(offline)
      ensures shownStats == old(shownStats) && badge == old(badge)
      ensures lastHoverIndex == old(lastHoverIndex)
    {
      if code == "Space" {
        TogglePause();
      }
    }

    /** Pointer movement over the throughput chart at `x` on a canvas
        `width` wide: over an empty chart the tooltip is hidden and nothing
        changes; otherwise the pointer resolves, against the current data, to
        a sample that becomes the hover index and the tooltip. */
    method MouseMove(x: real, width: real) returns (tip: Option<Tip>)
      requires Valid()
      requires Resolvable(x, |chart.samples|, width)
      modifies this
      ensures Valid()
      ensures paused == old(paused) && centerLabel == old(centerLabel) && offline == old(offline)
      ensures shownStats == old(shownStats) && badge == old(badge)
      ensures |chart.samples| == 0 ==> tip.None? && lastHoverIndex == old(lastHoverIndex)
      ensures |chart.samples| > 0 ==>
                var i := ResolveHover(x, |chart.samples|, width).value;
                && tip == Some(Tip(i, chart.samples[i]))
                && lastHoverIndex == i
    {
      var data := chart.Get();
      if |data| == 0 {
        return None;
      }
      var idx := ResolveHover(x, |data|, width).value;
      lastHoverIndex := idx;
      tip := Some(Tip(idx, data[idx]));
    }

    /** The pointer leaves the chart: no sample is highlighted any more. */
    method MouseLeave()
      requires Valid()
      modifies this
      ensures Valid()
      ensures lastHoverIndex == -1
      ensures paused == old(paused) && centerLabel == old(centerLabel) && offline == old(offline)
      ensures shownStats == old(shownStats) && badge == old(badge)
    {
      lastHoverIndex := -1;
    }

    /** The gauge tooltip: the caption, which always shows the same value
        as the centre label, and statistics recomputed from the CPU history,
        which always agree with the statistics row; it also shows whether
        updates are paused. */
    function CpuTooltip(): (t: CpuTip)
      reads this, cpuHist, chart, gauge
      requires Valid()
      ensures t.caption == centerLabel
      ensures t.stats == shownStats && t.paused == paused
      ensures t.stats.None? <==> |cpuHist.samples| == 0
    {
      CpuTip(centerLabel, WindowStats(cpuHist.samples), paused)
    }
  }

  /** One payload with CPU value `v` (and throughput 0) into a page whose CPU
      history is not yet full: the history grows by `v`, and the gauge and
      centre label follow `v` unless paused. */
  method FeedCpu(d: Dashboard, v: real)
    requires d.Valid() && |d.cpuHist.samples| < CpuHistoryMax
    modifies d, d.cpuHist, d.chart, d.gauge
    ensures d.Valid()
    ensures d.cpuHist.samples == old(d.cpuHist.samples) + [v]
    ensures d.paused == old(d.paused) && !d.offline
    ensures d.paused ==> d.gauge.value == old(d.gauge.value) && d.centerLabel == old(d.centerLabel)
    ensures !d.paused ==> d.gauge.value == Clamp(v) && d.centerLabel == Round(v)
  {
    d.Ingest(Some(Payload(Some(v), Some(0.0))));
  }

  /** The first phase of the pause scenario: a new page receives v1 and v2
      while running. */
  method RunningPhase(v1: real, v2: real) returns (d: Dashboard, shown: seq<real>, labels: seq<int>)
    ensures fresh(d) && fresh(d.cpuHist) && fresh(d.chart) && fresh(d.gauge)
    ensures d.Valid() && !d.paused
    ensures d.cpuHist.samples == [v1, v2]
    ensures d.gauge.value == Clamp(v2) && d.centerLabel == Round(v2)
    ensures shown == [Clamp(v1), Clamp(v2)] && labels == [Round(v1), Round(v2)]
  {
    d := new Dashboard();
    FeedCpu(d, v1);
    var g1, c1 := d.gauge.value, d.centerLabel;
    FeedCpu(d, v2);
    shown, labels := [g1, d.gauge.value], [c1, d.centerLabel];
  }

  /** The second phase: the page is paused and receives v3 and v4; the gauge
      and centre label keep what they showed. */
  method PausedPhase(d: Dashboard, v3: real, v4: real) returns (shown: seq<real>, labels: seq<int>)
    requires d.Valid() && !d.paused && |d.cpuHist.samples| == 2
    modifies d, d.cpuHist, d.chart, d.gauge
    ensures d.Valid() && d.paused
    ensures d.cpuHist.samples == old(d.cpuHist.samples) + [v3, v4]
    ensures d.gauge.value == old(d.gauge.value) && d.centerLabel == old(d.centerLabel)
    ensures shown == [old(d.gauge.value), old(d.gauge.value)]
    ensures labels == [old(d.centerLabel), old(d.centerLabel)]
  {
    d.TogglePause();
    FeedCpu(d, v3);
    var g3, c3 := d.gauge.value, d.centerLabel;
    FeedCpu(d, v4);
    shown, labels := [g3, d.gauge.value], [c3, d.centerLabel];
    assert d.cpuHist.samples == old(d.cpuHist.samples) + [v3] + [v4];
    AppendTwo(old(d.cpuHist.samples), v3, v4);
  }

  /** The last phase: the page is resumed, receives v5, then a null payload
      that marks it offline and leaves history, gauge and label alone. */
  method ResumedPhase(d: Dashboard, v5: real)
    requires d.Valid() && d.paused && |d.cpuHist.samples| == 4
    modifies d, d.cpuHist, d.chart, d.gauge
    ensures d.Valid() && !d.paused && d.offline
    ensures d.cpuHist.samples == old(d.cpuHist.samples) + [v5]
    ensures d.gauge.value == Clamp(v5) && d.centerLabel == Round(v5)
  {
    d.TogglePause();
    FeedCpu(d, v5);
    d.Ingest(None);
  }

  /** Appending two values one at a time appends the pair. */
  lemma AppendTwo(s: seq<real>, a: real, b: real)
    ensures s + [a] + [b] == s + [a, b]
  {
  }

  /** Two, two and one values appended in turn are the five in order. */
  lemma FiveInOrder(v1: real, v2: real, v3: real, v4: real, v5: real)
    ensures [v1, v2] + [v3, v4] + [v5] == [v1, v2, v3, v4, v5]
  {
  }

  /** Pause and resume in the middle of a feed, then a disconnect: the page
      receives v1 and v2, is paused, receives v3 and v4, is resumed and
      receives v5, then gets a null payload. The gauge shows v1, v2, v2, v2,
      v5 after the five payloads and the label likewise, the history holds
      all five values, and after the disconnect the page is offline and
      still shows v5. */
  method PauseResumeScenario(v1: real, v2: real, v3: real, v4: real, v5: real)
    returns (shown: seq<real>, labels: seq<int>, history: seq<real>, offline: bool)
    ensures shown == [Clamp(v1), Clamp(v2), Clamp(v2), Clamp(v2), Clamp(v5)]
    ensures labels == [Round(v1), Round(v2), Round(v2), Round(v2), Round(v5)]
    ensures history == [v1, v2, v3, v4, v5]
    ensures offline
  {
    var d, s1, l1 := RunningPhase(v1, v2);
    var s2, l2 := PausedPhase(d, v3, v4);
    ResumedPhase(d, v5);
    shown := [s1[0], s1[1], s2[0], s2[1], d.gauge.value];
    labels := [l1[0], l1[1], l2[0], l2[1], d.centerLabel];
    history, offline := d.cpuHist.samples, d.offline;
    FiveInOrder(v1, v2, v3, v4, v5);
  }
}
