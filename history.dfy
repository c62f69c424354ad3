/** The bounded FIFO history buffers of the CPU page: the throughput chart
    data made by `createChartData` and the inline CPU history, both of which
    append a sample and drop the oldest one once the length exceeds the
    capacity. */
module History {
  import opened Common

  /** The last `cap` elements of `s`, in order (all of `s` when it is no longer). */
  function Window(s: seq<real>, cap: nat): (w: seq<real>)
    ensures |w| == MinInt(|s|, cap)
  {
    if |s| <= cap then s else s[|s| - cap..]
  }

  /** The contents after pushing every element of `vs`, first to last, into a
      buffer of capacity `cap` that holds `s`. */
  function PushAll(s: seq<real>, vs: seq<real>, cap: nat): seq<real>
    decreases |vs|
  {
    if |vs| == 0 then s
    else Window(PushAll(s, vs[..|vs| - 1], cap) + [vs[|vs| - 1]], cap)
  }

  /** Trimming before one more push loses nothing that trimming after it keeps. */
  lemma WindowPush(t: seq<real>, v: real, cap: nat)
    ensures Window(Window(t, cap) + [v], cap) == Window(t + [v], cap)
  {
    if |t| > cap {
      var w := t[|t| - cap..];
      assert (w + [v])[1..] == (t + [v])[|t| + 1 - cap..];
    }
  }

  /** Any run of pushes into a buffer within its capacity leaves exactly the
      last `cap` elements of everything pushed, in insertion order. */
  lemma {:induction false} PushAllIsWindow(s: seq<real>, vs: seq<real>, cap: nat)
    requires |s| <= cap
    ensures PushAll(s, vs, cap) == Window(s + vs, cap)
  {
    if |vs| == 0 {
      assert s + vs == s;
    } else {
      var init, last := vs[..|vs| - 1], vs[|vs| - 1];
      calc {
        PushAll(s, vs, cap);
        Window(PushAll(s, init, cap) + [last], cap);
        { PushAllIsWindow(s, init, cap); }
        Window(Window(s + init, cap) + [last], cap);
        { WindowPush(s + init, last, cap); }
        Window(s + init + [last], cap);
        { assert s + init + [last] == s + vs; }
        Window(s + vs, cap);
      }
    }
  }

  /** After `cap + k` pushes into an empty buffer it holds exactly the last
      `cap` values pushed, in order. */
  lemma LastCapacityValues(vs: seq<real>, cap: nat)
    requires |vs| >= cap
    ensures PushAll([], vs, cap) == vs[|vs| - cap..]
    ensures |PushAll([], vs, cap)| == cap
  {
    assert PushAll([], vs, cap) == Window(vs, cap) by {
      PushAllIsWindow([], vs, cap);
      assert [] + vs == vs;
    }
    if |vs| == cap {
      assert vs[0..] == vs;
    }
  }

  /** A fixed-capacity sample buffer with FIFO eviction. */
  class BoundedSeries {
    const capacity: nat
    var samples: seq<real>

    ghost predicate Valid()
      reads this
    {
      |samples| <= capacity
    }

    constructor (max: nat)
      ensures Valid()
      ensures capacity == max && samples == []
    {
      capacity := max;
      samples := [];
    }

    /** Appends `v`, then drops the oldest sample if the buffer is over capacity. */
    method Push(v: real)
      requires Valid()
      modifies this
      ensures Valid()
      ensures samples == Window(old(samples) + [v], capacity)
      ensures |samples| == MinInt(|old(samples)| + 1, capacity)
    {
      samples := samples + [v];
      if |samples| > capacity {
        samples := samples[1..];
      }
    }

    /** A copy of the current contents; the buffer is left as it is. */
    method Get() returns (copy: seq<real>)
      ensures copy == samples
    {
      copy := samples[..];
    }
  }
}
