/** Axis decoration: the six Y ticks with their labels and gridlines, and one
    X label centred under each bar. */
module Axes {
  import opened Layout
  import Colour

  /** The number of equal steps from 0 to the maximum. */
  const Steps: nat := 5

  /** One Y tick: its label, the gridline's y and ends, and where the label
      text is anchored (right-aligned, 10 left of the axis, 5 below the line). */
  datatype YTick = YTick(value: int, y: real, labelX: real, labelY: real, gridFrom: real, gridTo: real)

  /** Tick `i` of the loop in `drawYAxisLabels`. */
  function YTickAt(maxValue: real, i: nat): (t: YTick)
    ensures t.y == Baseline - 80.0 * i as real && t.labelY == t.y + 5.0
    ensures t.labelX == 140.0 && t.gridFrom == 150.0 && t.gridTo == 750.0
    ensures maxValue / 5.0 * i as real - 0.5 < t.value as real <= maxValue / 5.0 * i as real + 0.5
  {
    var stepValue := maxValue / Steps as real;
    var stepHeight := ChartHeight / Steps as real;
    var y := ChartHeight + YOffset - stepHeight * i as real;
    YTick(Colour.Round(stepValue * i as real), y, XOffset - 10.0, y + 5.0, XOffset, CanvasWidth - 50.0)
  }

  /** `drawYAxisLabels`: the ticks in the order the loop draws them. */
  method DrawYAxisLabels(maxValue: real) returns (ticks: seq<YTick>)
    ensures |ticks| == Steps + 1
    ensures forall i :: 0 <= i <= Steps ==> ticks[i] == YTickAt(maxValue, i)
    ensures forall i :: 0 <= i <= Steps ==>
      ticks[i].y == Baseline - 80.0 * i as real &&
      ticks[i].gridFrom == 150.0 && ticks[i].gridTo == 750.0
  {
    ticks := [];
    var i := 0;
    while i <= Steps
      invariant 0 <= i <= Steps + 1
      invariant |ticks| == i
      invariant forall k :: 0 <= k < i ==> ticks[k] == YTickAt(maxValue, k)
    {
      ticks := ticks + [YTickAt(maxValue, i)];
      i := i + 1;
    }
  }

  /** The ticks climb from the baseline to the top of the plot, 80 apart. */
  lemma YTicksSpan(maxValue: real, i: nat, j: nat)
    requires i < j <= Steps
    ensures YTickAt(maxValue, 0).y == Baseline && YTickAt(maxValue, Steps).y == YOffset
    ensures YTickAt(maxValue, j).y < YTickAt(maxValue, i).y
    ensures YTickAt(maxValue, 0).value == 0 && YTickAt(maxValue, Steps).value == Colour.Round(maxValue)
  {
    assert maxValue / 5.0 * 5.0 == maxValue;
  }

  /** For a non-negative maximum the labels never decrease going up. */
  lemma YLabelsNonDecreasing(maxValue: real, i: nat, j: nat)
    requires 0.0 <= maxValue && i <= j
    ensures YTickAt(maxValue, i).value <= YTickAt(maxValue, j).value
  {
    var step := maxValue / 5.0;
    assert step * i as real <= step * j as real;
    var a, b := step * i as real + 0.5, step * j as real + 0.5;
    assert a.Floor <= b.Floor;
  }

  /** A maximum of 100 gives the labels 0, 20, 40, 60, 80 and 100. */
  lemma YLabelsForHundred()
    ensures forall i :: 0 <= i <= Steps ==> YTickAt(100.0, i).value == 20 * i
  {
    forall i | 0 <= i <= Steps
      ensures YTickAt(100.0, i).value == 20 * i
    {
      assert 100.0 / 5.0 * i as real + 0.5 == (20 * i) as real + 0.5;
    }
  }

  /** One X label: the point's name, centred at `x`, 30 below the baseline. */
  datatype XLabel = XLabel(text: string, x: real, y: real)

  /** `drawXAxisLabels`: one label per data point, in series order. An empty
      series draws nothing. */
  function XLabels(data: seq<DataPoint>): (labels: seq<XLabel>)
    ensures |labels| == |data|
    ensures forall i :: 0 <= i < |data| ==> labels[i].text == data[i].name && labels[i].y == Baseline + 30.0
    ensures |data| > 0 ==> forall i :: 0 <= i < |data| ==>
      labels[i].x == XOffset + i as real * BarSpacing(|data|) + BarWidth / 2.0
  {
    if |data| == 0 then []
    else
      var barSpacing := BarSpacing(|data|);
      seq(|data|, i requires 0 <= i < |data| =>
        XLabel(data[i].name, XOffset + i as real * barSpacing + BarWidth / 2.0, ChartHeight + YOffset + 30.0))
  }

  /** Each X label stands under the middle of its own bar. */
  lemma XLabelCentred(data: seq<DataPoint>, i: nat)
    requires Drawable(data) && i < |data|
    ensures XLabels(data)[i].x == Bars(data)[i].x + Bars(data)[i].width / 2.0
  {
  }
}
