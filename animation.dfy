/** `animateBars`: the entrance animation. A counter `progress` grows by a
    fixed step per frame; every frame redraws each bar clipped to
    `min(progress, targetHeight)` and standing on its own bottom edge; the loop
    re-schedules itself until `progress` reaches the chart height, and the
    frame that reaches it raises the completion flag. */
module Animation {
  import opened Layout

  /** `animationSpeed`: pixels added to `progress` per frame. */
  const AnimationSpeed: int := 5

  /** The number of frames the animation runs: 400 / 5. */
  const FrameCount: nat := 80

  /** The arguments one frame passes to `draw3DBar` for one bar. */
  datatype DrawnBar = DrawnBar(x: real, y: real, width: real, height: real, color: string, value: real)

  /** One call of `animate`: the progress it drew at, the bars it drew, and
      whether it raised the completion flag. */
  datatype Frame = Frame(progress: int, bars: seq<DrawnBar>, complete: bool)

  function Min(a: real, b: real): real {
    if a <= b then a else b
  }

  /** Bar `b` as drawn at `progress`: clipped height, top moved down so that
      its bottom stays where the full bar's bottom is. */
  function DrawnAt(b: Bar, progress: int): (d: DrawnBar)
    ensures d.height <= progress as real && d.height <= b.targetHeight
    ensures d.height == progress as real || d.height == b.targetHeight
    ensures d.y + d.height == b.y + b.targetHeight
    ensures d.x == b.x && d.width == b.width && d.color == b.color && d.value == b.value
  {
    var height := Min(progress as real, b.targetHeight);
    DrawnBar(b.x, b.y + b.targetHeight - height, b.width, height, b.color, b.value)
  }

  /** The frame `animate` draws once `progress` has been advanced. */
  function FrameAt(bars: seq<Bar>, progress: int): (f: Frame)
    ensures f.progress == progress && |f.bars| == |bars|
    ensures forall i :: 0 <= i < |bars| ==> f.bars[i] == DrawnAt(bars[i], progress)
  {
    Frame(progress, seq(|bars|, i requires 0 <= i < |bars| => DrawnAt(bars[i], progress)),
          progress as real >= ChartHeight)
  }

  /** `animateBars(bars)`: `animate` runs once and then again for as long as it
      re-schedules itself. Returns every frame drawn and the completion flag. */
  method AnimateBars(bars: seq<Bar>) returns (frames: seq<Frame>, complete: bool)
    ensures |frames| == FrameCount
    ensures forall k :: 0 <= k < |frames| ==> frames[k] == FrameAt(bars, AnimationSpeed * (k + 1))
    // progress goes 5, 10, ..., 400: one step per frame
    ensures frames[0].progress == AnimationSpeed && frames[FrameCount - 1].progress == 400
    ensures forall k :: 0 < k < |frames| ==> frames[k].progress == frames[k - 1].progress + AnimationSpeed
    // the flag is raised on the last frame and on no other
    ensures forall k :: 0 <= k < |frames| ==> frames[k].complete == (k == FrameCount - 1)
    ensures complete
  {
    var progress := 0;
    frames := [];
    complete := false;
    var scheduled := true;
    while scheduled
      invariant 0 <= progress <= 400 && progress == AnimationSpeed * |frames|
      invariant scheduled == (progress < 400)
      invariant complete == (progress >= 400)
      invariant forall k :: 0 <= k < |frames| ==> frames[k] == FrameAt(bars, AnimationSpeed * (k + 1))
      decreases 400 - progress
    {
      progress := progress + AnimationSpeed;
      frames := frames + [FrameAt(bars, progress)];
      if progress as real >= ChartHeight {
        complete := true;
      }
      scheduled := progress as real < ChartHeight;
    }
  }

  /** A drawn bar never exceeds its target height, keeps its bottom edge, and
      never shrinks from one frame to a later one. */
  lemma DrawnBarBounds(b: Bar, p: int, q: int)
    requires 0 <= p <= q && 0.0 <= b.targetHeight
    ensures 0.0 <= DrawnAt(b, p).height <= b.targetHeight
    ensures DrawnAt(b, p).y + DrawnAt(b, p).height == b.y + b.targetHeight
    ensures DrawnAt(b, p).height <= DrawnAt(b, q).height
    ensures DrawnAt(b, p).x == b.x && DrawnAt(b, p).width == b.width
  {
  }

  /** On a laid-out series every bar drawn in every frame stands on the
      baseline and stays within its target height. */
  lemma FramesStandOnBaseline(data: seq<DataPoint>, progress: int, i: nat)
    requires Drawable(data) && NonNegative(data) && 0 <= progress && i < |data|
    ensures var d := FrameAt(Bars(data), progress).bars[i];
      d.y + d.height == Baseline && 0.0 <= d.height <= Bars(data)[i].targetHeight
  {
    HeightBounded(data, i);
    BarShape(data, i);
    DrawnBarBounds(Bars(data)[i], progress, progress);
  }

  /** The last frame draws every laid-out bar at its full target height. */
  lemma LastFrameFullHeight(data: seq<DataPoint>, i: nat)
    requires Drawable(data) && NonNegative(data) && i < |data|
    ensures FrameAt(Bars(data), AnimationSpeed * FrameCount).bars[i] ==
      DrawnBar(Bars(data)[i].x, Bars(data)[i].y, BarWidth, Bars(data)[i].targetHeight, data[i].color, data[i].value)
  {
    HeightBounded(data, i);
  }
}
