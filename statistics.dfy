/** Window statistics of the CPU history: minimum, average and maximum over
    the whole current window, recomputed from scratch each time, or nothing
    (the page shows a placeholder) when the window is empty. */
module Statistics {
  import opened Common

  /** Math.min(...s) over a non-empty window. */
  function SeqMin(s: seq<real>): (m: real)
    requires |s| > 0
    ensures m in s
    ensures forall k :: 0 <= k < |s| ==> m <= s[k]
  {
    if |s| == 1 then s[0] else MinReal(s[0], SeqMin(s[1..]))
  }

  /** Math.max(...s) over a non-empty window. */
  function SeqMax(s: seq<real>): (m: real)
    requires |s| > 0
    ensures m in s
    ensures forall k :: 0 <= k < |s| ==> s[k] <= m
  {
    if |s| == 1 then s[0] else MaxReal(s[0], SeqMax(s[1..]))
  }

  /** `s.reduce((acc, v) => acc + v, 0)`: a left fold from 0. */
  function Sum(s: seq<real>): real {
    if |s| == 0 then 0.0 else Sum(s[..|s| - 1]) + s[|s| - 1]
  }

  /** The arithmetic mean of a non-empty window. */
  function Mean(s: seq<real>): real
    requires |s| > 0
  {
    Sum(s) / |s| as real
  }

  /** Bounds on every sample bound the total. */
  lemma {:induction false} SumBetween(s: seq<real>, lo: real, hi: real)
    requires forall k :: 0 <= k < |s| ==> lo <= s[k] <= hi
    ensures |s| as real * lo <= Sum(s) <= |s| as real * hi
  {
    if |s| > 0 {
      var init := s[..|s| - 1];
      SumBetween(init, lo, hi);
      assert |s| as real * lo == |init| as real * lo + lo;
      assert |s| as real * hi == |init| as real * hi + hi;
    }
  }

  /** The mean of `n` values lies between any bounds of the values. */
  lemma MeanBetween(total: real, n: real, lo: real, hi: real)
    requires n > 0.0 && n * lo <= total <= n * hi
    ensures lo <= total / n <= hi
    ensures (total / n) * n == total
  {
    var a := total / n;
    assert a * n == total;
    assert (a - lo) * n == total - n * lo;
    assert (hi - a) * n == n * hi - total;
  }

  /** The mean of samples that all lie in [lo, hi] lies there too. */
  lemma MeanOf(s: seq<real>, lo: real, hi: real)
    requires |s| > 0
    requires forall k :: 0 <= k < |s| ==> lo <= s[k] <= hi
    ensures lo <= Mean(s) <= hi
    ensures Mean(s) * |s| as real == Sum(s)
  {
    SumBetween(s, lo, hi);
    MeanBetween(Sum(s), |s| as real, lo, hi);
  }

  /** The mean of a window lies between its minimum and its maximum. */
  lemma AverageBetween(s: seq<real>)
    requires |s| > 0
    ensures SeqMin(s) <= Mean(s) <= SeqMax(s)
    ensures Mean(s) * |s| as real == Sum(s)
  {
    MeanOf(s, SeqMin(s), SeqMax(s));
  }

  datatype Stats = Stats(min: real, avg: real, max: real)

  /** `st` summarises the non-empty window `s`: its minimum and maximum are
      samples of `s` bounding every sample, and its average is the mean of
      `s`, which lies between them. */
  predicate Summarises(st: Stats, s: seq<real>) {
    && st.min in s && st.max in s
    && (forall k :: 0 <= k < |s| ==> st.min <= s[k] <= st.max)
    && st.min <= st.avg <= st.max
    && st.avg == Mean(s)
  }

  /** The minimum, mean and maximum of a non-empty window summarise it. */
  lemma SummaryOf(s: seq<real>)
    requires |s| > 0
    ensures Summarises(Stats(SeqMin(s), Mean(s), SeqMax(s)), s)
  {
    AverageBetween(s);
  }

  /** The min/avg/max shown under the gauge and in its tooltip; None stands
      for the "—" placeholder. */
  function WindowStats(s: seq<real>): (r: Option<Stats>)
    ensures r.None? <==> |s| == 0
    ensures r.Some? ==> Summarises(r.value, s)
  {
    if |s| == 0 then None
    else
      SummaryOf(s);
      Some(Stats(SeqMin(s), Mean(s), SeqMax(s)))
  }

  /** The worked cases: an empty window, one sample, and three samples. */
  lemma StatsExamples()
    ensures WindowStats([]) == None
    ensures WindowStats([50.0]) == Some(Stats(50.0, 50.0, 50.0))
    ensures WindowStats([10.0, 20.0, 30.0]) == Some(Stats(10.0, 20.0, 30.0))
  {
    var s := [10.0, 20.0, 30.0];
    assert s[..2] == [10.0, 20.0] && s[..2][..1] == [10.0];
    assert Sum([10.0]) == 10.0;
    assert Sum([10.0, 20.0]) == 30.0;
    assert Sum(s) == 60.0;
    assert s[1..] == [20.0, 30.0] && s[1..][1..] == [30.0];
    assert [50.0][..0] == [];
  }
}
