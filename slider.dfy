/// The slider of the current game (Levels/Slider.cs): a knob on a bar that the
/// player drags to bounce capsules. Dragging is limited to the bar, held for at
/// most three seconds, and followed by a return to the knob's origin before
/// the knob can be dragged again. The drag flag shared by all sliders lives on
/// the round.
module Sliders {
  import opened Engine
  import Gameplay

  const SLIDER_WEIGHT: real := 8.0
  /// How long one drag may be held before the slider lets go by itself.
  const DRAG_TIME_INTERVAL: real := 3.0
  /// The largest bar length the inspector allows.
  const BAR_LENGTH_MAX: real := 720.0
  /// How long the knob takes back to its origin after a forced and after a manual release.
  const TIMES_UP_RETURN_TIME: real := 1.0
  const RELEASE_RETURN_TIME: real := 0.2

  datatype Placement = Left | Right | Top | Bottom | Center

  /// The two ends of a bar.
  datatype Segment = Segment(startpoint: Vec2, endpoint: Vec2)

  /// The start point is below and left of the end point.
  predicate Ordered(s: Segment)
  {
    s.startpoint.x <= s.endpoint.x && s.startpoint.y <= s.endpoint.y
  }

  /// `p` lies in the box spanned by the segment's ends.
  predicate Within(p: Vec2, s: Segment)
  {
    s.startpoint.x <= p.x <= s.endpoint.x && s.startpoint.y <= p.y <= s.endpoint.y
  }

  /** `SetupSlider`'s endpoints: a vertical bar (`freezeX`) runs from
      `barLength / 2` below its centre to as far above it, a horizontal bar
      (`freezeY`) from as far left to as far right; a slider with neither flag
      keeps the endpoints it had. */
  function SetupEndpoints(barCenter: Vec2, barLength: real, freezeX: bool, freezeY: bool, current: Segment): (r: Segment)
    ensures freezeX ==>
      && r.startpoint.x == barCenter.x == r.endpoint.x
      && r.endpoint.y - r.startpoint.y == barLength
      && r.startpoint.y + r.endpoint.y == 2.0 * barCenter.y
    ensures !freezeX && freezeY ==>
      && r.startpoint.y == barCenter.y == r.endpoint.y
      && r.endpoint.x - r.startpoint.x == barLength
      && r.startpoint.x + r.endpoint.x == 2.0 * barCenter.x
    ensures !freezeX && !freezeY ==> r == current
    ensures barLength >= 0.0 && (freezeX || freezeY || Ordered(current)) ==> Ordered(r)
  {
    if freezeX then
      Segment(Vec2(barCenter.x, barCenter.y - barLength / 2.0), Vec2(barCenter.x, barCenter.y + barLength / 2.0))
    else if freezeY then
      Segment(Vec2(barCenter.x - barLength / 2.0, barCenter.y), Vec2(barCenter.x + barLength / 2.0, barCenter.y))
    else current
  }

  /** `AdjustSliderRange`: each coordinate of the touch is clamped to the bar's
      range, then the frozen coordinate is taken from the knob's current
      position instead. On an ordered bar the result lies on the bar's free
      axis range, and a touch already in range is followed exactly. */
  function AdjustSliderRange(touch: Vec2, s: Segment, position: Vec2, freezeX: bool, freezeY: bool): (r: Vec2)
    ensures freezeX ==> r.x == position.x
    ensures !freezeX && freezeY ==> r.y == position.y
    ensures Ordered(s) && !freezeX ==>
      s.startpoint.x <= r.x <= s.endpoint.x
      && (s.startpoint.x <= touch.x <= s.endpoint.x ==> r.x == touch.x)
    ensures Ordered(s) && (freezeX || !freezeY) ==>
      s.startpoint.y <= r.y <= s.endpoint.y
      && (s.startpoint.y <= touch.y <= s.endpoint.y ==> r.y == touch.y)
  {
    var clamped := Vec2(Clamp(touch.x, s.startpoint.x, s.endpoint.x), Clamp(touch.y, s.startpoint.y, s.endpoint.y));
    if freezeX then Vec2(position.x, clamped.y)
    else if freezeY then Vec2(clamped.x, position.y)
    else clamped
  }

  /// A knob on the bar stays where it is when the touch is exactly at the knob.
  lemma AdjustSliderRangeFixesKnob(s: Segment, position: Vec2, freezeX: bool, freezeY: bool)
    requires Ordered(s) && Within(position, s)
    ensures AdjustSliderRange(position, s, position, freezeX, freezeY) == position
  {
  }

  /// The knob never leaves the bar: a knob on the bar is moved to a point on the bar.
  lemma AdjustSliderRangeStaysWithin(touch: Vec2, s: Segment, position: Vec2, freezeX: bool, freezeY: bool)
    requires Ordered(s) && Within(position, s)
    ensures Within(AdjustSliderRange(touch, s, position, freezeX, freezeY), s)
  {
  }

  /// `Vector3.Lerp` on two coordinates.
  function LerpVec(a: Vec2, b: Vec2, t: real): Vec2
  {
    Vec2(Lerp(a.x, b.x, t), Lerp(a.y, b.y, t))
  }

  /** `GetPlacement`'s point: the start of the bar for Left and Bottom, its end
      for Right and Top, its middle for Center; on an ordered bar, a point on
      the bar. */
  function GetPlacement(placement: Placement, s: Segment): (r: Vec2)
    ensures (placement == Left || placement == Bottom) ==> r == s.startpoint
    ensures (placement == Right || placement == Top) ==> r == s.endpoint
    ensures placement == Center ==>
      r == Vec2((s.startpoint.x + s.endpoint.x) / 2.0, (s.startpoint.y + s.endpoint.y) / 2.0)
    ensures Ordered(s) ==> Within(r, s)
  {
    match placement
    case Left => LerpVec(s.startpoint, s.endpoint, 0.0)
    case Right => LerpVec(s.startpoint, s.endpoint, 1.0)
    case Top => LerpVec(s.startpoint, s.endpoint, 1.0)
    case Bottom => LerpVec(s.startpoint, s.endpoint, 0.0)
    case Center => LerpVec(s.startpoint, s.endpoint, 0.5)
  }

  class Slider {
    const manager: Gameplay.Round
    const placement: Placement
    const freezeX: bool
    const freezeY: bool
    var segment: Segment
    var origin: Vec2
    /// The knob's position.
    var position: Vec2
    var isDraggable: bool
    var onDragLocal: bool
    var dragTime: real
    /// The return tween `ReleaseDrag` starts is running, for this long.
    var returning: bool
    var returnTime: real

    /** The slider's invariant: the bar is ordered, the knob and its origin are
        on it, the drag timer is within 0..3, and the slider is only held
        while it is draggable. */
    ghost predicate Valid()
      reads this
    {
      && Ordered(segment) && Within(origin, segment) && Within(position, segment)
      && 0.0 <= dragTime <= DRAG_TIME_INTERVAL
      && (onDragLocal ==> isDraggable)
    }

    /// A slider as its first `OnEnable` leaves it, from the bar's centre and length.
    constructor (manager: Gameplay.Round, placement: Placement, freezeX: bool, freezeY: bool,
                 barCenter: Vec2, barLength: real)
      requires 0.0 <= barLength <= BAR_LENGTH_MAX
      ensures Valid() && this.manager == manager && this.placement == placement
      ensures this.freezeX == freezeX && this.freezeY == freezeY
      ensures position == origin == GetPlacement(placement, segment)
      ensures isDraggable && !onDragLocal && dragTime == DRAG_TIME_INTERVAL
    {
      this.manager := manager;
      this.placement := placement;
      this.freezeX := freezeX;
      this.freezeY := freezeY;
      segment := Segment(Vec2(0.0, 0.0), Vec2(0.0, 0.0));
      origin := Vec2(0.0, 0.0);
      position := Vec2(0.0, 0.0);
      isDraggable, onDragLocal := false, false;
      dragTime := 0.0;
      returning, returnTime := false, 0.0;
      new;
      OnEnable(barCenter, barLength);
    }

    /** `OnEnable`: the endpoints are set up, dragging is allowed, and the knob
        and its origin move to the placement point. */
    method OnEnable(barCenter: Vec2, barLength: real)
      requires Valid() && 0.0 <= barLength <= BAR_LENGTH_MAX
      modifies this
      ensures Valid()
      ensures segment == SetupEndpoints(barCenter, barLength, freezeX, freezeY, old(segment))
      ensures position == origin == GetPlacement(placement, segment)
      ensures isDraggable && dragTime == DRAG_TIME_INTERVAL && !returning
      ensures onDragLocal == old(onDragLocal)
    {
      segment := SetupEndpoints(barCenter, barLength, freezeX, freezeY, segment);
      // `AllowDrag` without its move to the old origin, which the placement overwrites.
      returning, isDraggable, dragTime := false, true, DRAG_TIME_INTERVAL;
      position := GetPlacement(placement, segment);
      origin := position;
    }

    /// `AllowDrag`: stop the return tween, put the knob at its origin, make it draggable with a full drag timer.
    method AllowDrag()
      requires Valid()
      modifies this`returning, this`position, this`isDraggable, this`dragTime
      ensures Valid()
      ensures position == origin && isDraggable && dragTime == DRAG_TIME_INTERVAL && !returning
    {
      returning := false;
      position := origin;
      isDraggable := true;
      dragTime := DRAG_TIME_INTERVAL;
    }

    /** The state changes of `ReleaseDrag`: no slider is held any more, this
        one is not draggable and its drag timer is at zero; the knob starts
        back to its origin, taking one second after a forced release and a
        fifth of a second otherwise. */
    method ReleaseDrag(timesUp: bool)
      requires Valid()
      modifies manager`onDrag, this`onDragLocal, this`dragTime, this`isDraggable, this`returning, this`returnTime
      ensures Valid()
      ensures !manager.onDrag && !onDragLocal && !isDraggable && dragTime == 0.0
      ensures returning && returnTime == (if timesUp then TIMES_UP_RETURN_TIME else RELEASE_RETURN_TIME)
    {
      manager.onDrag := false;
      onDragLocal := manager.onDrag;
      dragTime := 0.0;
      isDraggable := false;
      returnTime := if timesUp then TIMES_UP_RETURN_TIME else RELEASE_RETURN_TIME;
      returning := true;
    }

    /// The return tween's last step, which puts the knob exactly at its origin.
    method ReturnArrived()
      requires Valid() && returning
      modifies this`position, this`returning
      ensures Valid() && position == origin && !returning
    {
      position := origin;
      returning := false;
    }

    /** `DragTimer`: with no slider held the timer refills to three seconds;
        while this slider is held and draggable it counts down, and a frame that
        finds it at zero releases the slider. */
    method DragTimer(dt: real)
      requires Valid() && dt >= 0.0
      modifies manager`onDrag, this`onDragLocal, this`dragTime, this`isDraggable, this`returning, this`returnTime
      ensures Valid()
      ensures !old(manager.onDrag) ==>
        dragTime == DRAG_TIME_INTERVAL && !manager.onDrag && onDragLocal == old(onDragLocal)
        && isDraggable == old(isDraggable) && returning == old(returning) && returnTime == old(returnTime)
      ensures old(manager.onDrag) && !old(onDragLocal && isDraggable) ==>
        dragTime == old(dragTime) && manager.onDrag && onDragLocal == old(onDragLocal)
        && isDraggable == old(isDraggable) && returning == old(returning) && returnTime == old(returnTime)
      ensures old(manager.onDrag && onDragLocal && isDraggable) && old(dragTime) > 0.0 ==>
        dragTime == CountDown(old(dragTime), dt) && manager.onDrag && onDragLocal && isDraggable
        && returning == old(returning) && returnTime == old(returnTime)
      ensures old(manager.onDrag && onDragLocal && isDraggable) && old(dragTime) <= 0.0 ==>
        !manager.onDrag && !onDragLocal && !isDraggable && dragTime == 0.0
        && returning && returnTime == TIMES_UP_RETURN_TIME
    {
      if !manager.onDrag {
        dragTime := DRAG_TIME_INTERVAL;
      }
      if !manager.onDrag || !onDragLocal || !isDraggable {
        return;
      }
      if dragTime > 0.0 {
        dragTime := CountDown(dragTime, dt);
      } else {
        ReleaseDrag(true);
      }
    }

    /** `OnMouseDown`: ignored before the game starts and while it is paused.
        Otherwise a slider is held from now on, even when this one is not
        draggable; a draggable one is held locally, its return tween stops
        and the knob jumps to the touch, kept on the bar. */
    method OnMouseDown(touch: Vec2)
      requires Valid()
      modifies manager`onDrag, this`onDragLocal, this`returning, this`position
      ensures Valid()
      ensures !old(manager.gameStarted) || old(manager.paused) ==>
        manager.onDrag == old(manager.onDrag) && unchanged(this)
      ensures old(manager.gameStarted) && !old(manager.paused) ==> manager.onDrag
      ensures old(manager.gameStarted) && !old(manager.paused) && !isDraggable ==> unchanged(this)
      ensures old(manager.gameStarted) && !old(manager.paused) && isDraggable ==>
        onDragLocal && !returning
        && position == AdjustSliderRange(touch, segment, old(position), freezeX, freezeY)
    {
      if !manager.gameStarted || manager.paused {
        return;
      }
      manager.onDrag := true;
      if !isDraggable {
        return;
      }
      onDragLocal := manager.onDrag;
      returning := false;
      AdjustSliderRangeStaysWithin(touch, segment, position, freezeX, freezeY);
      position := AdjustSliderRange(touch, segment, position, freezeX, freezeY);
    }

    /** `OnMouseDrag`: the knob follows the touch, kept on the bar, only while
        the game runs unpaused and this slider is held and draggable. */
    method OnMouseDrag(touch: Vec2)
      requires Valid()
      modifies this`position
      ensures Valid()
      ensures old(manager.gameStarted && manager.onDrag && onDragLocal && !manager.paused && isDraggable) ==>
        position == AdjustSliderRange(touch, segment, old(position), freezeX, freezeY)
      ensures !old(manager.gameStarted && manager.onDrag && onDragLocal && !manager.paused && isDraggable) ==>
        position == old(position)
    {
      if !manager.gameStarted || !manager.onDrag || !onDragLocal || manager.paused {
        return;
      }
      if !isDraggable {
        return;
      }
      AdjustSliderRangeStaysWithin(touch, segment, position, freezeX, freezeY);
      position := AdjustSliderRange(touch, segment, position, freezeX, freezeY);
    }

    /// `OnMouseUp`: a slider held locally is released by hand; otherwise nothing happens.
    method OnMouseUp()
      requires Valid()
      modifies manager`onDrag, this`onDragLocal, this`dragTime, this`isDraggable, this`returning, this`returnTime
      ensures Valid()
      ensures !old(onDragLocal) ==> unchanged(this) && manager.onDrag == old(manager.onDrag)
      ensures old(onDragLocal) ==>
        !manager.onDrag && !onDragLocal && !isDraggable && dragTime == 0.0
        && returning && returnTime == RELEASE_RETURN_TIME
    {
      if !onDragLocal {
        return;
      }
      ReleaseDrag(false);
    }

    /// `AtOrigin`: the knob is back at its origin after a release.
    predicate AtOrigin(): (r: bool)
      reads this
      ensures r ==> position == origin
      ensures r <==> position == origin && !onDragLocal && !isDraggable
    {
      position == origin && !onDragLocal && !isDraggable
    }

    /** `Update`: nothing while the game is over; otherwise a knob back at its
        origin after a release becomes draggable again, and the drag timer runs
        on the frame time the scripts see. Dragging is only ever re-enabled
        with the knob at its origin. The drag timer's four cases are stated on
        the state `AllowDrag` leaves: a slider held locally is never at its
        origin, so only the refill and the idle cases see that reset. */
    method Update(dt: real)
      requires Valid() && dt >= 0.0
      modifies manager`onDrag, this`onDragLocal, this`dragTime, this`isDraggable, this`returning,
               this`returnTime, this`position
      ensures Valid()
      ensures old(manager.GameOver()) ==> unchanged(this) && manager.onDrag == old(manager.onDrag)
      ensures !old(manager.GameOver()) && old(AtOrigin()) ==>
        position == origin && isDraggable && dragTime == DRAG_TIME_INTERVAL
      ensures !old(isDraggable) && isDraggable ==> old(AtOrigin()) && position == origin
      ensures !old(manager.GameOver()) && !old(AtOrigin()) ==> position == old(position)
      ensures !old(manager.GameOver()) && !old(manager.onDrag) ==>
        && !manager.onDrag && dragTime == DRAG_TIME_INTERVAL && onDragLocal == old(onDragLocal)
        && isDraggable == (old(isDraggable) || old(AtOrigin()))
        && returning == (old(returning) && !old(AtOrigin())) && returnTime == old(returnTime)
      ensures !old(manager.GameOver()) && old(manager.onDrag) && !old(onDragLocal && isDraggable) ==>
        && manager.onDrag && onDragLocal == old(onDragLocal)
        && isDraggable == (old(isDraggable) || old(AtOrigin()))
        && returning == (old(returning) && !old(AtOrigin())) && returnTime == old(returnTime)
        && dragTime == (if old(AtOrigin()) then DRAG_TIME_INTERVAL else old(dragTime))
      ensures !old(manager.GameOver()) && old(manager.onDrag && onDragLocal && isDraggable) && old(dragTime) > 0.0 ==>
        && manager.onDrag && onDragLocal && isDraggable
        && returning == old(returning) && returnTime == old(returnTime)
        && dragTime == CountDown(old(dragTime), manager.FrameTime(dt))
      ensures !old(manager.GameOver()) && old(manager.onDrag && onDragLocal && isDraggable) && old(dragTime) <= 0.0 ==>
        && !manager.onDrag && !onDragLocal && !isDraggable && dragTime == 0.0
        && returning && returnTime == TIMES_UP_RETURN_TIME
    {
      if manager.GameOver() {
        return;
      }
      if AtOrigin() {
        AllowDrag();
      }
      DragTimer(manager.FrameTime(dt));
    }
  }
}
