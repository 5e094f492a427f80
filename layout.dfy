/** Bar geometry: the map from the data series to one bar record per data
    point, on the fixed 800 x 500 canvas. */
module Layout {

  const CanvasWidth: real := 800.0
  const CanvasHeight: real := 500.0
  const BarWidth: real := 40.0
  const ChartHeight: real := 400.0
  const XOffset: real := 150.0
  const YOffset: real := 50.0
  /** The right margin subtracted before the plot width is shared out. */
  const RightMargin: real := 100.0
  /** The y of the x axis: every bar stands on it. */
  const Baseline: real := ChartHeight + YOffset

  datatype DataPoint = DataPoint(name: string, value: real, color: string)

  datatype Bar = Bar(x: real, y: real, width: real, targetHeight: real, color: string, value: real)

  /** `Math.max(...data.map(d => d.value))` for a non-empty series. */
  function MaxValue(data: seq<DataPoint>): (m: real)
    requires |data| > 0
    ensures forall i :: 0 <= i < |data| ==> data[i].value <= m
    ensures exists i :: 0 <= i < |data| && data[i].value == m
  {
    if |data| == 1 then data[0].value
    else
      var rest := MaxValue(data[1..]);
      assert forall i :: 1 <= i < |data| ==> data[i] == data[1..][i - 1];
      if data[0].value > rest then data[0].value else rest
  }

  /** The inputs the layout divides by: at least one bar, and a positive
      maximum. */
  predicate Drawable(data: seq<DataPoint>) {
    |data| > 0 && MaxValue(data) > 0.0
  }

  predicate NonNegative(data: seq<DataPoint>) {
    forall i :: 0 <= i < |data| ==> data[i].value >= 0.0
  }

  /** `(canvas.width - xOffset - 100) / data.length`. */
  function BarSpacing(n: nat): (s: real)
    requires n > 0
    ensures s > 0.0
  {
    (CanvasWidth - XOffset - RightMargin) / n as real
  }

  /** `(d.value / maxValue) * chartHeight`. */
  function HeightOf(value: real, maxValue: real): real
    requires maxValue > 0.0
  {
    (value / maxValue) * ChartHeight
  }

  /** Heights are proportional to values: the height is to the chart height
      as the value is to the maximum. */
  lemma HeightProportional(value: real, maxValue: real)
    requires maxValue > 0.0
    ensures HeightOf(value, maxValue) * maxValue == value * ChartHeight
  {
    var q := value / maxValue;
    assert q * maxValue == value;
    assert q * ChartHeight * maxValue == q * maxValue * ChartHeight;
  }

  /** The record built for the `i`th data point. */
  function BarAt(data: seq<DataPoint>, i: nat): (b: Bar)
    requires Drawable(data) && i < |data|
    ensures b.width == BarWidth && b.color == data[i].color && b.value == data[i].value
    ensures b.y + b.targetHeight == Baseline && b.targetHeight == HeightOf(data[i].value, MaxValue(data))
    ensures b.x >= XOffset
  {
    var barHeight := HeightOf(data[i].value, MaxValue(data));
    var x := XOffset + i as real * BarSpacing(|data|);
    var y := ChartHeight + YOffset - barHeight;
    Bar(x, y, BarWidth, barHeight, data[i].color, data[i].value)
  }

  /** `data.map(...)` in `drawChart`: one bar per point, in series order. */
  function Bars(data: seq<DataPoint>): (bars: seq<Bar>)
    requires Drawable(data)
    ensures |bars| == |data|
    ensures forall i :: 0 <= i < |data| ==> bars[i] == BarAt(data, i)
  {
    seq(|data|, i requires 0 <= i < |data| => BarAt(data, i))
  }

  /** Each bar carries its own point's colour and value, is 40 wide, and
      its bottom is on the baseline. */
  lemma BarShape(data: seq<DataPoint>, i: nat)
    requires Drawable(data) && i < |data|
    ensures var b := Bars(data)[i];
      b.color == data[i].color && b.value == data[i].value &&
      b.width == BarWidth && b.y + b.targetHeight == Baseline
  {
  }

  /** Bar `i` has its left edge at `150 + i * 550 / n`. */
  lemma BarX(data: seq<DataPoint>, i: nat)
    requires Drawable(data) && i < |data|
    ensures Bars(data)[i].x * |data| as real == XOffset * |data| as real + i as real * 550.0
  {
    var n := |data| as real;
    var s := BarSpacing(|data|);
    assert s * n == 550.0;
    calc {
      (XOffset + i as real * s) * n;
      XOffset * n + i as real * (s * n);
    }
  }

  /** Bars stand strictly left to right in series order, one spacing apart
      per index. */
  lemma XStrictlyIncreasing(data: seq<DataPoint>, i: nat, j: nat)
    requires Drawable(data) && i < j < |data|
    ensures Bars(data)[j].x - Bars(data)[i].x == (j - i) as real * BarSpacing(|data|)
    ensures Bars(data)[i].x < Bars(data)[j].x
  {
    var s := BarSpacing(|data|);
    assert j as real * s - i as real * s == (j - i) as real * s;
    assert (j - i) as real * s >= s;
  }

  /** For non-negative values every target height lies in [0, 400], so every
      bar top lies between the top of the plot (50) and the baseline (450). */
  lemma HeightBounded(data: seq<DataPoint>, i: nat)
    requires Drawable(data) && NonNegative(data) && i < |data|
    ensures 0.0 <= Bars(data)[i].targetHeight <= ChartHeight
    ensures YOffset <= Bars(data)[i].y <= Baseline
  {
    var m := MaxValue(data);
    var v := data[i].value;
    assert 0.0 <= v <= m;
    assert v / m <= 1.0;
  }

  /** The largest value gets the full chart height. */
  lemma TallestBarFullHeight(data: seq<DataPoint>)
    requires Drawable(data)
    ensures exists i :: 0 <= i < |data| && Bars(data)[i].targetHeight == ChartHeight
  {
    var m := MaxValue(data);
    var i :| 0 <= i < |data| && data[i].value == m;
    assert Bars(data)[i].targetHeight == (m / m) * ChartHeight;
  }

  /** The series of two bars with values 50 and 100: half and full height. */
  lemma TwoBarExample()
    ensures var data := [DataPoint("A", 50.0, "#ff0000"), DataPoint("B", 100.0, "#00ff00")];
      Drawable(data) && MaxValue(data) == 100.0 &&
      Bars(data)[0].targetHeight == 200.0 && Bars(data)[1].targetHeight == 400.0 &&
      Bars(data)[0].x == 150.0 && Bars(data)[1].x == 425.0
  {
    var data := [DataPoint("A", 50.0, "#ff0000"), DataPoint("B", 100.0, "#00ff00")];
    assert data[1..] == [data[1]];
    assert MaxValue(data) == 100.0;
  }
}
