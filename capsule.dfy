/// A capsule of the current game (Levels/Capsule.cs) as a record of the state
/// its script and its rigid body hold, with the pure steps that change one
/// capsule. The round controller (module Gameplay) keeps the capsules in two
/// arrays and applies these steps in place.
module Capsules {
  import opened Engine

  const INITIAL_GRAVITY: real := 50.0
  const GRAVITY_INTERVAL: real := 1.0
  const MAX_SPEED: real := 720.0
  const DEADZONE_VALUE: real := 144.0
  /// The upward component of the launch impulse.
  const LAUNCH_FORCE_Y: real := 720.0
  /// Delay of the `TurnOffLaunch` callback scheduled by `Launch`.
  const LAUNCH_RESET_DELAY: real := 0.5

  const SLIDER_TAG: Tag := "Slider"
  const PLATFORM_TAG: Tag := "Platform"

  /** One capsule. `velocity` and `gravityScale` are its rigid body's;
      `impulse` is the last impulse `Launch` applied; `launchPending` and
      `launchTimer` stand for the scheduled `TurnOffLaunch`; `exiting` says
      the dead-zone coroutine is waiting for the screen shake to end. */
  datatype Capsule = Capsule(
    active: bool,
    points: int,
    gravityScale: real,
    starred: bool,
    faked: bool,
    isLaunched: bool,
    launchPending: bool,
    launchTimer: real,
    velocity: Vec2,
    impulse: Vec2,
    exiting: bool)

  /// A capsule as it sits in the pool before its first use.
  const IDLE: Capsule := Capsule(false, 0, INITIAL_GRAVITY, false, false, false, false, 0.0,
                                 Vec2(0.0, 0.0), Vec2(0.0, 0.0), false)

  /** `SetCapsuleValue`: a scoring bounce adds 3 to a star capsule, otherwise
      takes 5 from a fake one, otherwise adds 1; the star test comes first. */
  function SetCapsuleValue(c: Capsule, pts: int): (r: int)
    ensures c.starred ==> r == pts + 3
    ensures !c.starred && c.faked ==> r == pts - 5
    ensures !c.starred && !c.faked ==> r == pts + 1
  {
    if c.starred then pts + 3 else if c.faked then pts - 5 else pts + 1
  }

  /// `InDeadZone`: the open band of vertical speeds that never score.
  predicate InDeadZone(vy: real): (r: bool)
    ensures r <==> (if vy < 0.0 then -vy else vy) < DEADZONE_VALUE
  {
    vy < DEADZONE_VALUE && vy > -DEADZONE_VALUE
  }

  /// The velocity clamp applied every frame and on every collision.
  function ClampVelocity(v: Vec2): (r: Vec2)
    ensures -MAX_SPEED <= r.x <= MAX_SPEED && -MAX_SPEED <= r.y <= MAX_SPEED
    ensures -MAX_SPEED <= v.x <= MAX_SPEED ==> r.x == v.x
    ensures -MAX_SPEED <= v.y <= MAX_SPEED ==> r.y == v.y
    ensures v.x > MAX_SPEED ==> r.x == MAX_SPEED
    ensures v.x < -MAX_SPEED ==> r.x == -MAX_SPEED
    ensures v.y > MAX_SPEED ==> r.y == MAX_SPEED
    ensures v.y < -MAX_SPEED ==> r.y == -MAX_SPEED
  {
    Vec2(Clamp(v.x, -MAX_SPEED, MAX_SPEED), Clamp(v.y, -MAX_SPEED, MAX_SPEED))
  }

  /// Clamping twice is clamping once, so the second clamp after the gravity step changes nothing.
  lemma ClampVelocityIdempotent(v: Vec2)
    ensures ClampVelocity(ClampVelocity(v)) == ClampVelocity(v)
  {
  }

  /// Whether a collision scores: a Slider collision whose clamped vertical speed is outside the dead band.
  predicate ScoringBounce(tag: Tag, v: Vec2)
  {
    tag == SLIDER_TAG && !InDeadZone(ClampVelocity(v).y)
  }

  /// The clamp never moves a speed across the dead band, so scoring depends on the raw speed alone.
  lemma ScoringBounceRaw(tag: Tag, v: Vec2)
    ensures ScoringBounce(tag, v) <==> tag == SLIDER_TAG && (v.y >= DEADZONE_VALUE || v.y <= -DEADZONE_VALUE)
  {
  }

  /** `OnCollisionEnter2D` on the capsule's own state: the velocity is clamped;
      a Slider or Platform collision raises the gravity scale by one step; a
      scoring bounce adds the capsule's value to its points. */
  function Collided(c: Capsule, tag: Tag, v: Vec2): (r: Capsule)
    ensures r.velocity == ClampVelocity(v)
    ensures r.gravityScale == (if tag == SLIDER_TAG || tag == PLATFORM_TAG then c.gravityScale + GRAVITY_INTERVAL else c.gravityScale)
    ensures r.points == (if ScoringBounce(tag, v) then SetCapsuleValue(c, c.points) else c.points)
    ensures r.active == c.active && r.starred == c.starred && r.faked == c.faked && r.exiting == c.exiting
    ensures r.isLaunched == c.isLaunched && r.launchPending == c.launchPending
    ensures r.launchTimer == c.launchTimer && r.impulse == c.impulse
  {
    ClampVelocityIdempotent(v);
    var c1 := c.(velocity := ClampVelocity(v));
    if tag == SLIDER_TAG || tag == PLATFORM_TAG then
      var c2 := c1.(gravityScale := c1.gravityScale + GRAVITY_INTERVAL, velocity := ClampVelocity(c1.velocity));
      if tag == SLIDER_TAG && !InDeadZone(c2.velocity.y) then
        c2.(points := SetCapsuleValue(c2, c2.points))
      else
        c2
    else
      c1
  }

  /** `gameObject.SetActive(true)`: an inactive capsule runs `OnEnable`, which
      zeroes its points; an active one is left as it is. The random sideways
      impulse `OnEnable` applies is not modelled. */
  function Enabled(c: Capsule): (r: Capsule)
    ensures r.active && r.starred == c.starred && r.faked == c.faked
    ensures !c.active ==> r.points == 0
    ensures c.active ==> r == c
  {
    if c.active then c else c.(active := true, points := 0)
  }

  /** `gameObject.SetActive(false)`: an active capsule runs `OnDisable`, which
      cancels the pending `TurnOffLaunch`, and its coroutines stop. */
  function Disabled(c: Capsule): (r: Capsule)
    ensures !r.active
    ensures r.points == c.points && r.starred == c.starred && r.gravityScale == c.gravityScale
    ensures c.active ==> !r.launchPending && !r.exiting
    ensures !c.active ==> r == c
  {
    if c.active then c.(active := false, launchPending := false, exiting := false) else c
  }

  /// `StarCapsule`: the capsule is starred, and nothing else about it changes.
  function Starred(c: Capsule): (r: Capsule)
    ensures r.starred && r.faked == c.faked
    ensures r.active == c.active && r.points == c.points && r.gravityScale == c.gravityScale
    ensures r.isLaunched == c.isLaunched && r.launchPending == c.launchPending
    ensures r.launchTimer == c.launchTimer && r.velocity == c.velocity && r.impulse == c.impulse
    ensures r.exiting == c.exiting
  {
    c.(starred := true)
  }

  /// `FakeCapsule`: the capsule is marked fake, and nothing else about it changes.
  function Faked(c: Capsule): (r: Capsule)
    ensures r.faked && r.starred == c.starred
    ensures r.active == c.active && r.points == c.points && r.gravityScale == c.gravityScale
    ensures r.isLaunched == c.isLaunched && r.launchPending == c.launchPending
    ensures r.launchTimer == c.launchTimer && r.velocity == c.velocity && r.impulse == c.impulse
    ensures r.exiting == c.exiting
  {
    c.(faked := true)
  }

  /** The reset a capsule gets when it leaves through the dead zone: points 0,
      gravity back to its initial scale, star removed, then deactivated. The
      fake flag is kept. */
  function Recycled(c: Capsule): (r: Capsule)
    ensures !r.active && r.points == 0 && r.gravityScale == INITIAL_GRAVITY && !r.starred
    ensures r.faked == c.faked
  {
    Disabled(c.(points := 0, gravityScale := INITIAL_GRAVITY, starred := false))
  }

  /** `Launch`: marks the capsule launched, stops it, applies an impulse with
      the given sideways force and 720 upward, and schedules `TurnOffLaunch`. */
  function Launched(c: Capsule, forceX: real): (r: Capsule)
    ensures r.isLaunched && r.velocity == Vec2(0.0, 0.0) && r.impulse.y == LAUNCH_FORCE_Y
    ensures r.launchPending && r.launchTimer == LAUNCH_RESET_DELAY
  {
    c.(isLaunched := true, velocity := Vec2(0.0, 0.0), impulse := Vec2(forceX, LAUNCH_FORCE_Y),
       launchPending := true, launchTimer := LAUNCH_RESET_DELAY)
  }

  /** One frame of an active capsule: `Update` clamps the velocity, and a
      scheduled `TurnOffLaunch` whose delay has run out clears `isLaunched`. */
  function Updated(c: Capsule, dt: real): (r: Capsule)
    requires dt >= 0.0
    ensures r.velocity == ClampVelocity(c.velocity)
    ensures !c.launchPending ==> r.isLaunched == c.isLaunched && !r.launchPending
    ensures c.launchPending && c.launchTimer - dt <= 0.0 ==> !r.isLaunched && !r.launchPending
    ensures c.launchPending && c.launchTimer - dt > 0.0 ==> r.isLaunched == c.isLaunched && r.launchPending
  {
    var c1 := c.(velocity := ClampVelocity(c.velocity));
    if !c1.launchPending then c1
    else if c1.launchTimer - dt <= 0.0 then c1.(isLaunched := false, launchPending := false, launchTimer := 0.0)
    else c1.(launchTimer := c1.launchTimer - dt)
  }

  /// A launched capsule that stays active is no longer launched once the delay has passed in frames.
  lemma {:induction false} LaunchWearsOff(c: Capsule, forceX: real, dts: seq<real>)
    requires FrameTimes(dts)
    requires Elapsed(dts) >= LAUNCH_RESET_DELAY
    ensures !Frames(Launched(c, forceX), dts).isLaunched
  {
    FramesClearLaunch(Launched(c, forceX), dts);
  }

  /// The capsule after a sequence of frames.
  function Frames(c: Capsule, dts: seq<real>): Capsule
    requires FrameTimes(dts)
    decreases |dts|
  {
    if dts == [] then c else Frames(Updated(c, dts[0]), dts[1..])
  }

  lemma {:induction false} FramesClearLaunch(c: Capsule, dts: seq<real>)
    requires FrameTimes(dts)
    requires c.launchPending && Elapsed(dts) >= c.launchTimer > 0.0
    ensures !Frames(c, dts).isLaunched
    decreases |dts|
  {
    assert dts != [];
    var c1 := Updated(c, dts[0]);
    if c1.launchPending {
      FramesClearLaunch(c1, dts[1..]);
    } else {
      FramesKeepLanded(c1, dts[1..]);
    }
  }

  lemma {:induction false} FramesKeepLanded(c: Capsule, dts: seq<real>)
    requires FrameTimes(dts)
    requires !c.launchPending && !c.isLaunched
    ensures !Frames(c, dts).isLaunched
    decreases |dts|
  {
    if dts != [] {
      FramesKeepLanded(Updated(c, dts[0]), dts[1..]);
    }
  }
}
