/** The hover hit test of `handleMouseMove`: a scan over the bars in series
    order that keeps the last bar whose box contains the pointer. */
module HitTest {
  import opened Layout
  import Extrusion

  datatype Option<T> = None | Some(value: T)

  /** What the hover slot holds: the bar's index, the top centre of its
      front face, and its value. */
  datatype HoveredBar = HoveredBar(index: nat, x: real, y: real, value: real)

  /** The closed box `[x, x + 40] x [y, 450]`: for a laid-out bar, exactly the
      front face as drawn once the animation has completed. */
  predicate InHitBox(b: Bar, mouseX: real, mouseY: real)
    ensures b.width == BarWidth && b.y + b.targetHeight == Baseline ==>
      var f := Extrusion.Rectangle(b.color, b.x, b.y, b.width, b.targetHeight).vertices;
      (InHitBox(b, mouseX, mouseY) <==> f[0].x <= mouseX <= f[1].x && f[0].y <= mouseY <= f[3].y)
  {
    mouseX >= b.x && mouseX <= b.x + BarWidth && mouseY >= b.y && mouseY <= ChartHeight + YOffset
  }

  predicate Hits(data: seq<DataPoint>, i: nat, mouseX: real, mouseY: real)
    requires Drawable(data) && i < |data|
  {
    InHitBox(BarAt(data, i), mouseX, mouseY)
  }

  /** The hover record of bar `i`: anchored at the middle of its front face's
      top edge, which for a non-negative value is a point of its own box. */
  function Hovered(data: seq<DataPoint>, i: nat): (h: HoveredBar)
    requires Drawable(data) && i < |data|
    ensures var f := Extrusion.Rectangle(data[i].color, BarAt(data, i).x, BarAt(data, i).y, BarWidth, BarAt(data, i).targetHeight).vertices;
      h.x == (f[0].x + f[1].x) / 2.0 && h.y == f[0].y
    ensures h.index == i && h.value == data[i].value
    ensures data[i].value >= 0.0 ==> Hits(data, i, h.x, h.y)
  {
    var b := BarAt(data, i);
    assert data[i].value >= 0.0 ==> data[i].value / MaxValue(data) >= 0.0;
    HoveredBar(i, b.x + BarWidth / 2.0, b.y, data[i].value)
  }

  /** The last of the first `n` bars whose box contains the pointer. */
  function LastHit(data: seq<DataPoint>, mouseX: real, mouseY: real, n: nat): (r: Option<HoveredBar>)
    requires Drawable(data) && n <= |data|
    ensures r.Some? ==> r.value.index < n && Hits(data, r.value.index, mouseX, mouseY)
    ensures r.Some? ==> r.value == Hovered(data, r.value.index)
  {
    if n == 0 then None
    else if Hits(data, n - 1, mouseX, mouseY) then Some(Hovered(data, n - 1))
    else LastHit(data, mouseX, mouseY, n - 1)
  }

  /** LastHit finds the greatest matching index, and only it. */
  lemma {:induction false} LastHitIsGreatestMatch(data: seq<DataPoint>, mouseX: real, mouseY: real, n: nat)
    requires Drawable(data) && n <= |data|
    ensures LastHit(data, mouseX, mouseY, n).None? <==>
      forall j :: 0 <= j < n ==> !Hits(data, j, mouseX, mouseY)
    ensures LastHit(data, mouseX, mouseY, n).Some? ==>
      var h := LastHit(data, mouseX, mouseY, n).value;
      h.index < n && Hits(data, h.index, mouseX, mouseY) && h == Hovered(data, h.index) &&
      forall j :: h.index < j < n ==> !Hits(data, j, mouseX, mouseY)
  {
    if n > 0 && !Hits(data, n - 1, mouseX, mouseY) {
      LastHitIsGreatestMatch(data, mouseX, mouseY, n - 1);
    }
  }

  /** The scan of `handleMouseMove`: every bar is tested in series order and a
      match overwrites the one found so far. */
  method ScanBars(data: seq<DataPoint>, mouseX: real, mouseY: real) returns (foundBar: Option<HoveredBar>)
    requires Drawable(data)
    ensures foundBar == LastHit(data, mouseX, mouseY, |data|)
    ensures foundBar.None? <==> forall j :: 0 <= j < |data| ==> !Hits(data, j, mouseX, mouseY)
    ensures foundBar.Some? ==>
      foundBar.value.index < |data| && Hits(data, foundBar.value.index, mouseX, mouseY) &&
      foundBar.value == Hovered(data, foundBar.value.index) &&
      forall j :: foundBar.value.index < j < |data| ==> !Hits(data, j, mouseX, mouseY)
  {
    var barSpacing := BarSpacing(|data|);
    var maxValue := MaxValue(data);
    foundBar := None;
    var i := 0;
    while i < |data|
      invariant 0 <= i <= |data|
      invariant foundBar == LastHit(data, mouseX, mouseY, i)
    {
      var barHeight := (data[i].value / maxValue) * ChartHeight;
      var x := XOffset + i as real * barSpacing;
      var y := ChartHeight + YOffset - barHeight;
      assert BarAt(data, i).x == x && BarAt(data, i).y == y;
      ghost var hit := Hits(data, i, mouseX, mouseY);
      assert hit == (mouseX >= x && mouseX <= x + BarWidth && mouseY >= y && mouseY <= ChartHeight + YOffset);
      if mouseX >= x && mouseX <= x + BarWidth && mouseY >= y && mouseY <= ChartHeight + YOffset {
        foundBar := Some(HoveredBar(i, x + BarWidth / 2.0, y, data[i].value));
        assert foundBar == Some(Hovered(data, i));
      }
      assert foundBar == LastHit(data, mouseX, mouseY, i + 1);
      i := i + 1;
    }
    LastHitIsGreatestMatch(data, mouseX, mouseY, |data|);
  }

  /** With at most 13 bars the spacing 550 / n is wider than a bar, so no two
      boxes overlap and at most one bar matches. */
  lemma AtMostOneMatch(data: seq<DataPoint>, mouseX: real, mouseY: real, i: nat, j: nat)
    requires Drawable(data) && |data| <= 13 && i < j < |data|
    ensures !(Hits(data, i, mouseX, mouseY) && Hits(data, j, mouseX, mouseY))
  {
    var n := |data| as real;
    var s := BarSpacing(|data|);
    SpacingExceedsBarWidth(|data|);
    XStrictlyIncreasing(data, i, j);
    assert (j - i) as real * s >= s;
  }

  /** `550 / n > 40` for every bar count from 1 to 13, case by case. */
  lemma SpacingExceedsBarWidth(n: nat)
    requires 0 < n <= 13
    ensures BarSpacing(n) > BarWidth
  {
    var s := BarSpacing(n);
    if n == 13 { assert s == 550.0 / 13.0; }
    else if n == 12 { assert s == 550.0 / 12.0; }
    else if n == 11 { assert s == 50.0; }
    else if n == 10 { assert s == 55.0; }
    else { assert s * n as real == 550.0; assert n as real <= 9.0; }
  }

  /** With 14 bars the spacing drops below the bar width and neighbouring
      boxes overlap: on the shared strip the later bar wins. */
  lemma FourteenBarsOverlap(data: seq<DataPoint>)
    requires |data| == 14 && forall i :: 0 <= i < |data| ==> data[i].value == 1.0
    ensures Drawable(data)
    ensures Hits(data, 0, 190.0, 450.0) && Hits(data, 1, 190.0, 450.0)
    ensures LastHit(data, 190.0, 450.0, 14) == Some(Hovered(data, 1))
  {
    assert MaxValue(data) == 1.0;
    var s := BarSpacing(14);
    assert s * 14.0 == 550.0;
    forall j | 1 < j < 14
      ensures !Hits(data, j, 190.0, 450.0)
    {
      assert j as real * s >= 2.0 * s;
    }
    assert Hits(data, 1, 190.0, 450.0);
    LastHitIsGreatestMatch(data, 190.0, 450.0, 14);
  }

  /** The extruded faces are not hoverable: a point of the top face above its
      bottom edge lies above the box, and a point of the right face right of
      its left edge lies right of the box. `t` measures how far along the skew
      the point is, `s` how far along the front edge. */
  lemma FacesOutsideHitBox(data: seq<DataPoint>, i: nat, s: real, t: real)
    requires Drawable(data) && i < |data|
    requires 0.0 <= s <= 1.0 && 0.0 < t <= 1.0
    ensures var b := Bars(data)[i];
      var d := Extrusion.Depth;
      !InHitBox(b, b.x + s * b.width + t * d, b.y - t * d) &&
      !InHitBox(b, b.x + b.width + t * d, b.y + s * b.targetHeight - t * d)
  {
  }
}
