/** The radial CPU gauge: a value clamped to [0, 100] on every write and the
    active arc it sweeps, from angle π through a further π·value/100. */
module Gauges {
  import opened Common

  const GaugeMax: real := 100.0

  /** `Math.max(0, Math.min(100, v))`. */
  function Clamp(v: real): (c: real)
    ensures 0.0 <= c <= GaugeMax
    ensures 0.0 <= v <= GaugeMax ==> c == v
    ensures v < 0.0 ==> c == 0.0
    ensures v > GaugeMax ==> c == GaugeMax
  {
    MaxReal(0.0, MinReal(GaugeMax, v))
  }

  /** The clamp picks the point of [0, 100] nearest to its input. */
  lemma ClampIsNearest(v: real, y: real)
    requires 0.0 <= y <= GaugeMax
    ensures Abs(Clamp(v) - v) <= Abs(y - v)
  {
  }

  /** Clamping twice is clamping once, and out-of-range writes saturate. */
  lemma ClampLaws(v: real)
    ensures Clamp(Clamp(v)) == Clamp(v)
    ensures Clamp(150.0) == Clamp(100.0)
    ensures Clamp(-5.0) == Clamp(0.0)
  {
  }

  class Gauge {
    var value: real

    ghost predicate Valid()
      reads this
    {
      0.0 <= value <= GaugeMax
    }

    constructor ()
      ensures Valid() && value == 0.0
    {
      value := 0.0;
    }

    /** Stores the clamped value (the redraw that follows is not modelled). */
    method SetValue(v: real)
      modifies this
      ensures Valid()
      ensures value == Clamp(v)
    {
      value := Clamp(v);
    }

    /** The fraction of the semicircle the active arc covers. */
    function Sweep(): (f: real)
      reads this
      requires Valid()
      ensures 0.0 <= f <= 1.0
      ensures f * GaugeMax == value
    {
      value / GaugeMax
    }

    /** End angle of the active arc in multiples of π; the arc starts at π,
        so it never leaves the upper half of the track. */
    function ArcEnd(): (a: real)
      reads this
      requires Valid()
      ensures 1.0 <= a <= 2.0
      ensures (a - 1.0) * GaugeMax == value
      ensures value == 0.0 ==> a == 1.0
      ensures value == GaugeMax ==> a == 2.0
    {
      1.0 + Sweep()
    }
  }
}
