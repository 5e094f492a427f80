/** The component's two state slots, `hoveredBar` and `animationComplete`,
    and the handlers that set them: the render pass that runs the animation,
    the mouse-move hit test and the mouse-out reset. */
module Chart {
  import opened Layout
  import opened Animation
  import opened HitTest

  class BarChart3D {
    /** The series the chart was rendered with. */
    const data: seq<DataPoint>
    var hoveredBar: Option<HoveredBar>
    var animationComplete: bool

    predicate Valid() {
      Drawable(data)
    }

    /** The first render: nothing hovered, the animation not finished. */
    constructor (data: seq<DataPoint>)
      requires Drawable(data)
      ensures Valid() && this.data == data
      ensures hoveredBar == None && !animationComplete
    {
      this.data := data;
      hoveredBar := None;
      animationComplete := false;
    }

    /** `drawChart`: lay the bars out and run the animation over them. The
        hover slot is not touched; the completion flag is raised. */
    method DrawChart() returns (frames: seq<Frame>)
      requires Valid()
      modifies this
      ensures Valid() && hoveredBar == old(hoveredBar) && animationComplete
      ensures |frames| == FrameCount
      ensures forall k :: 0 <= k < FrameCount ==> frames[k] == FrameAt(Bars(data), AnimationSpeed * (k + 1))
    {
      var bars := Bars(data);
      var complete;
      frames, complete := AnimateBars(bars);
      if complete {
        animationComplete := true;
      }
    }

    /** `handleMouseMove` with the pointer at canvas-local `(mouseX, mouseY)`:
        ignored until the animation has completed, then the hover slot is
        overwritten with the result of the scan. */
    method HandleMouseMove(mouseX: real, mouseY: real)
      requires Valid()
      modifies this
      ensures Valid() && animationComplete == old(animationComplete)
      ensures !old(animationComplete) ==> hoveredBar == old(hoveredBar)
      ensures old(animationComplete) ==> hoveredBar == LastHit(data, mouseX, mouseY, |data|)
    {
      if !animationComplete {
        return;
      }
      var foundBar := ScanBars(data, mouseX, mouseY);
      hoveredBar := foundBar;
    }

    /** The `mouseout` listener: the hover slot is cleared. */
    method HandleMouseOut()
      requires Valid()
      modifies this
      ensures Valid() && animationComplete == old(animationComplete)
      ensures hoveredBar == None
    {
      hoveredBar := None;
    }
  }

  /** A client: before the animation has run a move changes nothing; after it,
      a pointer on the second of two bars hovers that bar, and leaving the
      canvas clears it. */
  method HoverAfterAnimation()
  {
    var data := [DataPoint("A", 50.0, "#ff0000"), DataPoint("B", 100.0, "#00ff00")];
    TwoBarExample();
    var chart := new BarChart3D(data);
    chart.HandleMouseMove(445.0, 300.0);
    assert chart.hoveredBar == None;
    var frames := chart.DrawChart();
    chart.HandleMouseMove(445.0, 300.0);
    assert !Hits(data, 0, 445.0, 300.0) && Hits(data, 1, 445.0, 300.0);
    assert chart.hoveredBar == Some(Hovered(data, 1));
    chart.HandleMouseOut();
    assert chart.hoveredBar == None;
  }
}
