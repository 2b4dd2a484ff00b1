/// The earlier slider (Scripts/Slider.cs): a knob on a bar with a fill bar
/// that grows behind it, dragged by mouse or by a second touch, and sent back
/// to its origin on release at a fixed speed. Its bar ends and placement point
/// are those of the current slider's `Placement` and `Segment`.
module EarlySliders {
  import opened Engine
  import Sliders

  /// The return tween covers this distance per second.
  const RETURN_SPEED: real := 200.0
  /// How long `ResetSlide` takes to empty the left fill bar.
  const RESET_SLIDE_TIME: real := 0.1

  /// The phase of a touch, as Unity reports it.
  datatype TouchPhase = Began | Moved | Stationary | Ended | Canceled

  function Abs(v: real): (r: real)
    ensures r >= 0.0 && (r == v || r == -v)
  {
    if v < 0.0 then -v else v
  }

  function Lesser(a: real, b: real): (r: real)
    ensures r <= a && r <= b && (r == a || r == b)
  {
    if a <= b then a else b
  }

  function Greater(a: real, b: real): (r: real)
    ensures r >= a && r >= b && (r == a || r == b)
  {
    if a <= b then b else a
  }

  /// `v` lies between `a` and `b`, in whichever order they come.
  predicate Between(v: real, a: real, b: real)
  {
    Lesser(a, b) <= v <= Greater(a, b)
  }

  /// `p` lies in the box spanned by the bar's ends.
  predicate Inside(p: Vec2, s: Sliders.Segment)
  {
    Between(p.x, s.startpoint.x, s.endpoint.x) && Between(p.y, s.startpoint.y, s.endpoint.y)
  }

  /** `Awake`'s endpoints, from the bar's centre and scale: a vertical bar
      (`freezeX`) runs from its TOP down to its bottom, a horizontal one
      (`freezeY`) from its left to its right; with neither flag both ends keep
      their default, the origin. The vertical order is the reverse of what the
      clamp in `AdjustSliderRange` expects (see `VerticalKnobPinned`). */
  function AwakeEndpoints(barCenter: Vec2, barScale: Vec2, freezeX: bool, freezeY: bool): (r: Sliders.Segment)
    ensures freezeX ==>
      && r.startpoint.x == barCenter.x == r.endpoint.x
      && r.startpoint.y - r.endpoint.y == barScale.y
      && r.startpoint.y + r.endpoint.y == 2.0 * barCenter.y
    ensures !freezeX && freezeY ==>
      && r.startpoint.y == barCenter.y == r.endpoint.y
      && r.endpoint.x - r.startpoint.x == barScale.x
      && r.startpoint.x + r.endpoint.x == 2.0 * barCenter.x
    ensures !freezeX && !freezeY ==> r.startpoint == r.endpoint == Vec2(0.0, 0.0)
  {
    if freezeX then
      Sliders.Segment(Vec2(barCenter.x, barCenter.y + barScale.y / 2.0), Vec2(barCenter.x, barCenter.y - barScale.y / 2.0))
    else if freezeY then
      Sliders.Segment(Vec2(barCenter.x - barScale.x / 2.0, barCenter.y), Vec2(barCenter.x + barScale.x / 2.0, barCenter.y))
    else Sliders.Segment(Vec2(0.0, 0.0), Vec2(0.0, 0.0))
  }

  /** With `Awake`'s endpoints, the clamp as written (`Mathf.Clamp` from
      start to end, the same clamp as `Sliders.AdjustSliderRange`) puts a
      vertical knob at the top or the bottom of its bar, wherever the touch is. */
  lemma VerticalKnobPinned(barCenter: Vec2, barScale: Vec2, touch: Vec2, position: Vec2, freezeY: bool)
    requires barScale.y > 0.0
    ensures var s := AwakeEndpoints(barCenter, barScale, true, freezeY);
            var r := Sliders.AdjustSliderRange(touch, s, position, true, freezeY);
            r.y == s.startpoint.y || r.y == s.endpoint.y
  {
  }

  /** The smallest case: on a bar of height 20 centred at the origin, a touch
      at the centre sends the knob as written to the top, where the corrected
      clamp leaves it at the touch. */
  lemma CentreTouchJumpsToTop()
    ensures var s := AwakeEndpoints(Vec2(0.0, 0.0), Vec2(1.0, 20.0), true, false);
            && Sliders.AdjustSliderRange(Vec2(0.0, 0.0), s, Vec2(0.0, 10.0), true, false) == Vec2(0.0, 10.0)
            && AdjustSliderRange(Vec2(0.0, 0.0), s, Vec2(0.0, 10.0), true, false) == Vec2(0.0, 0.0)
  {
  }

  /** `AdjustSliderRange`, corrected to clamp each coordinate between the
      lesser and the greater end: the result lies on the bar's range of every
      free coordinate, a touch in range is followed exactly, and the frozen
      coordinate is the knob's. */
  function AdjustSliderRange(touch: Vec2, s: Sliders.Segment, position: Vec2, freezeX: bool, freezeY: bool): (r: Vec2)
    ensures freezeX ==> r.x == position.x
    ensures !freezeX && freezeY ==> r.y == position.y
    ensures !freezeX ==>
      Between(r.x, s.startpoint.x, s.endpoint.x)
      && (Between(touch.x, s.startpoint.x, s.endpoint.x) ==> r.x == touch.x)
    ensures freezeX || !freezeY ==>
      Between(r.y, s.startpoint.y, s.endpoint.y)
      && (Between(touch.y, s.startpoint.y, s.endpoint.y) ==> r.y == touch.y)
  {
    var clamped := Vec2(Clamp(touch.x, Lesser(s.startpoint.x, s.endpoint.x), Greater(s.startpoint.x, s.endpoint.x)),
                        Clamp(touch.y, Lesser(s.startpoint.y, s.endpoint.y), Greater(s.startpoint.y, s.endpoint.y)));
    if freezeX then Vec2(position.x, clamped.y)
    else if freezeY then Vec2(clamped.x, position.y)
    else clamped
  }

  /// With the corrected clamp a vertical knob follows every touch on its bar.
  lemma VerticalKnobFollows(barCenter: Vec2, barScale: Vec2, touch: Vec2, position: Vec2, freezeY: bool)
    requires barScale.y >= 0.0
    requires barCenter.y - barScale.y / 2.0 <= touch.y <= barCenter.y + barScale.y / 2.0
    ensures AdjustSliderRange(touch, AwakeEndpoints(barCenter, barScale, true, freezeY), position, true, freezeY).y == touch.y
  {
  }

  /** `GetPlacement`'s point: the start of the bar for Left, Top and Bottom
      alike, its end for Right, its middle for Center; always on the bar. */
  function GetPlacement(placement: Sliders.Placement, s: Sliders.Segment): (r: Vec2)
    ensures placement in {Sliders.Left, Sliders.Top, Sliders.Bottom} ==> r == s.startpoint
    ensures placement == Sliders.Right ==> r == s.endpoint
    ensures placement == Sliders.Center ==>
      r == Vec2((s.startpoint.x + s.endpoint.x) / 2.0, (s.startpoint.y + s.endpoint.y) / 2.0)
    ensures Inside(r, s)
  {
    match placement
    case Left => Sliders.LerpVec(s.startpoint, s.endpoint, 0.0)
    case Right => Sliders.LerpVec(s.startpoint, s.endpoint, 1.0)
    case Top => Sliders.LerpVec(s.startpoint, s.endpoint, 0.0)
    case Bottom => Sliders.LerpVec(s.startpoint, s.endpoint, 0.0)
    case Center => Sliders.LerpVec(s.startpoint, s.endpoint, 0.5)
  }

  /** The distance from `a` to `b`, measured as the sum of the distances
      along each axis. It is zero exactly when the points coincide, and equals
      the straight-line distance when they share a coordinate. */
  function AxisDistance(a: Vec2, b: Vec2): (r: real)
    ensures r >= 0.0
    ensures r == 0.0 <==> a == b
    ensures a.x == b.x ==> r == Abs(a.y - b.y)
    ensures a.y == b.y ==> r == Abs(a.x - b.x)
  {
    Abs(a.x - b.x) + Abs(a.y - b.y)
  }

  /** The width `AdjustFillBars` gives the fill bar: the distance from the
      origin cut to a whole number for a horizontal slider, and zero for any
      other. */
  function FillWidth(position: Vec2, origin: Vec2, freezeY: bool): (r: int)
    ensures r >= 0
    ensures freezeY ==> r as real <= AxisDistance(position, origin) < r as real + 1.0
    ensures !freezeY ==> r == 0
  {
    if freezeY then AxisDistance(position, origin).Floor else 0
  }

  /** How long `OnMouseUp`'s return takes: the distance to the origin at two
      hundred per second; zero exactly when the knob is at its origin. */
  function ReturnDuration(position: Vec2, origin: Vec2): (r: real)
    ensures r >= 0.0
    ensures r == 0.0 <==> position == origin
    ensures r * RETURN_SPEED == AxisDistance(position, origin)
  {
    AxisDistance(position, origin) / RETURN_SPEED
  }

  class EarlySlider {
    const placement: Sliders.Placement
    const freezeX: bool
    const freezeY: bool
    var segment: Sliders.Segment
    var origin: Vec2
    /// The knob's position.
    var position: Vec2
    var isDraggable: bool
    /// The two fill bars' widths and whether each is shown.
    var leftBarWidth: real
    var rightBarWidth: real
    var leftBarShown: bool
    var rightBarShown: bool
    /// The tween back to the origin is running, for this long.
    var returning: bool
    var returnTime: real
    /// The tween emptying the left fill bar is running, for this long.
    var shrinking: bool
    var shrinkTime: real

    /** The slider's invariant: the knob and its origin are on the bar, and
        the knob only ever moves along the bar's free axis. */
    ghost predicate Valid()
      reads this
    {
      && Inside(origin, segment) && Inside(position, segment)
      && (freezeX ==> position.x == origin.x)
      && (!freezeX && freezeY ==> position.y == origin.y)
    }

    /** `Awake`: the endpoints are set from the bar, both fill bars are empty
        and hidden, the bar of a Left or Right slider is shown again, and the
        knob and its origin go to the placement point. Whether the slider
        starts draggable is set in the inspector. */
    constructor (placement: Sliders.Placement, freezeX: bool, freezeY: bool, barCenter: Vec2, barScale: Vec2,
                 isDraggable: bool)
      ensures Valid() && this.placement == placement && this.freezeX == freezeX && this.freezeY == freezeY
      ensures segment == AwakeEndpoints(barCenter, barScale, freezeX, freezeY)
      ensures position == origin == GetPlacement(placement, segment)
      ensures this.isDraggable == isDraggable && !returning && !shrinking
      ensures leftBarWidth == 0.0 && rightBarWidth == 0.0
      ensures leftBarShown <==> placement == Sliders.Left
      ensures rightBarShown <==> placement == Sliders.Right
    {
      this.placement := placement;
      this.freezeX := freezeX;
      this.freezeY := freezeY;
      this.isDraggable := isDraggable;
      var s := AwakeEndpoints(barCenter, barScale, freezeX, freezeY);
      segment := s;
      // `ResetFillBars`
      leftBarWidth, rightBarWidth := 0.0, 0.0;
      leftBarShown, rightBarShown := false, false;
      // `GetPlacement`'s side effect on the fill bars
      if placement == Sliders.Left {
        leftBarShown := true;
      } else if placement == Sliders.Right {
        rightBarShown := true;
      }
      position := GetPlacement(placement, s);
      origin := GetPlacement(placement, s);
      returning, returnTime := false, 0.0;
      shrinking, shrinkTime := false, 0.0;
    }

    /** `Update`: a knob at its origin becomes draggable; with more than one
        finger down, the first touch moves the knob on the frames it begins or
        moves, draggable or not. */
    method Update(touchCount: int, phase: TouchPhase, touch: Vec2)
      requires Valid()
      modifies this`isDraggable, this`position
      ensures Valid()
      ensures isDraggable == (old(isDraggable) || old(position) == origin)
      ensures touchCount > 1 && (phase == Began || phase == Moved) ==>
        position == AdjustSliderRange(touch, segment, old(position), freezeX, freezeY)
      ensures !(touchCount > 1 && (phase == Began || phase == Moved)) ==> position == old(position)
    {
      if position == origin {
        isDraggable := true;
      }
      if touchCount > 1 && (phase == Began || phase == Moved) {
        position := AdjustSliderRange(touch, segment, position, freezeX, freezeY);
      }
    }

    /** `OnMouseDown`: ignored when the slider is not draggable; otherwise the
        running tweens stop and the knob jumps to the cursor, kept on the bar. */
    method OnMouseDown(cursor: Vec2)
      requires Valid()
      modifies this`returning, this`shrinking, this`position
      ensures Valid()
      ensures !isDraggable ==> unchanged(this)
      ensures isDraggable ==>
        !returning && !shrinking && position == AdjustSliderRange(cursor, segment, old(position), freezeX, freezeY)
    {
      if !isDraggable {
        return;
      }
      returning, shrinking := false, false;
      position := AdjustSliderRange(cursor, segment, position, freezeX, freezeY);
    }

    /** `AdjustFillBars`: the Left slider's left bar or the Right slider's
        right bar takes the fill width; nothing else changes. */
    method AdjustFillBars()
      modifies this`leftBarWidth, this`rightBarWidth
      ensures placement == Sliders.Left ==>
        leftBarWidth == FillWidth(position, origin, freezeY) as real && rightBarWidth == old(rightBarWidth)
      ensures placement == Sliders.Right ==>
        rightBarWidth == FillWidth(position, origin, freezeY) as real && leftBarWidth == old(leftBarWidth)
      ensures placement != Sliders.Left && placement != Sliders.Right ==>
        leftBarWidth == old(leftBarWidth) && rightBarWidth == old(rightBarWidth)
    {
      var newX := FillWidth(position, origin, freezeY);
      match placement {
        case Left => leftBarWidth := newX as real;
        case Right => rightBarWidth := newX as real;
        case _ =>
      }
    }

    /** `OnMouseDrag`: ignored when the slider is not draggable; otherwise the
        knob follows the cursor, kept on the bar, and the fill bar follows the knob. */
    method OnMouseDrag(cursor: Vec2)
      requires Valid()
      modifies this`position, this`leftBarWidth, this`rightBarWidth
      ensures Valid()
      ensures !isDraggable ==> unchanged(this)
      ensures isDraggable ==> position == AdjustSliderRange(cursor, segment, old(position), freezeX, freezeY)
      ensures isDraggable && placement == Sliders.Left ==>
        leftBarWidth == FillWidth(position, origin, freezeY) as real && rightBarWidth == old(rightBarWidth)
      ensures isDraggable && placement == Sliders.Right ==>
        rightBarWidth == FillWidth(position, origin, freezeY) as real && leftBarWidth == old(leftBarWidth)
      ensures placement != Sliders.Left && placement != Sliders.Right ==>
        leftBarWidth == old(leftBarWidth) && rightBarWidth == old(rightBarWidth)
    {
      if !isDraggable {
        return;
      }
      position := AdjustSliderRange(cursor, segment, position, freezeX, freezeY);
      AdjustFillBars();
    }

    /** `OnMouseUp`: the slider stops being draggable; a knob away from its
        origin starts back to it, and the left fill bar starts emptying, both
        over the return duration. A knob at its origin starts nothing. */
    method OnMouseUp()
      requires Valid()
      modifies this`isDraggable, this`returning, this`returnTime, this`shrinking, this`shrinkTime
      ensures Valid() && !isDraggable
      ensures position == origin ==>
        && returning == old(returning) && shrinking == old(shrinking)
        && returnTime == old(returnTime) && shrinkTime == old(shrinkTime)
      ensures position != origin ==>
        returning && shrinking && returnTime == shrinkTime == ReturnDuration(position, origin) > 0.0
    {
      isDraggable := false;
      var time := ReturnDuration(position, origin);
      if time == 0.0 {
        return;
      }
      returning, returnTime := true, time;
      shrinking, shrinkTime := true, time;
    }

    /// `ResetSlide`: every tween stops, and the left fill bar empties in a tenth of a second.
    method ResetSlide()
      modifies this`returning, this`shrinking, this`shrinkTime
      ensures !returning && shrinking && shrinkTime == RESET_SLIDE_TIME
    {
      returning := false;
      shrinking, shrinkTime := true, RESET_SLIDE_TIME;
    }

    /// The return tween's last step, which puts the knob exactly at its origin.
    method ReturnArrived()
      requires Valid() && returning
      modifies this`position, this`returning
      ensures Valid() && position == origin && !returning
    {
      position := origin;
      returning := false;
    }

    /// The shrink tween's last step, which leaves the left fill bar exactly empty.
    method ShrinkArrived()
      requires shrinking
      modifies this`leftBarWidth, this`shrinking
      ensures leftBarWidth == 0.0 && !shrinking
    {
      leftBarWidth := 0.0;
      shrinking := false;
    }
  }
}
