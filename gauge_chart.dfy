/** The circular gauge (`components/GaugeChart.tsx`): its colour band, how far the
    ring is filled, and the number shown in its middle. */
module GaugeChartComponent {
  import opened Common

  const GaugeGreen: string := "#27ae60"
  const GaugeOrange: string := "#e67e22"
  const GaugeRed: string := "#e74c3c"

  /** Green by default, orange below 60, red below 40: the later reassignment wins. */
  function GaugeColor(value: real): (c: string)
    ensures c == GaugeRed <==> value < 40.0
    ensures c == GaugeOrange <==> 40.0 <= value < 60.0
    ensures c == GaugeGreen <==> value >= 60.0
  {
    var color := if value < 60.0 then GaugeOrange else GaugeGreen;
    if value < 40.0 then GaugeRed else color
  }

  /** A higher value never gets a colour of a lower band. */
  lemma GaugeColorMonotonic(a: real, b: real)
    requires a <= b
    ensures GaugeColor(a) == GaugeGreen ==> GaugeColor(b) == GaugeGreen
    ensures GaugeColor(b) == GaugeRed ==> GaugeColor(a) == GaugeRed
  {
  }

  /** The scale maximum when none is given. */
  const DefaultMax: real := 100.0

  /** `Math.min(100, value / max * 100)`: the filled percentage of the ring. */
  function Fill(value: real, max: real): (f: real)
    requires max > 0.0
    ensures f <= 100.0
    ensures f == 100.0 <==> value >= max
    ensures value < max ==> f * max == value * 100.0
    ensures 0.0 <= value ==> 0.0 <= f
  {
    var ratio := value / max * 100.0;
    if ratio < 100.0 then ratio else 100.0
  }

  /** On the default scale the fill is the value itself, capped at 100. */
  lemma DefaultScaleFill(value: real)
    ensures Fill(value, DefaultMax) == if value < 100.0 then value else 100.0
  {
  }

  /** The number shown: the value rounded to the nearest integer, halves up. */
  function DisplayedValue(value: real): (n: int)
    ensures n as real - 0.5 <= value < n as real + 0.5
  {
    Round(value)
  }

  /** A value on the 0..100 scale is shown as an integer on the same scale. */
  lemma DisplayedValueInScale(value: real)
    requires 0.0 <= value <= 100.0
    ensures 0 <= DisplayedValue(value) <= 100
  {
    RoundWithin(value, 0, 100);
  }
}
