/// The bouncer platform (Bouncer.cs): a capsule hitting it switches its
/// collider off for ten seconds, and the sprite shows that state by its opacity.
module Bouncers {
  import opened Engine

  const ACTIVATION_TIME: real := 10.0
  const SOLID_ALPHA: real := 1.0
  const FADED_ALPHA: real := 0.5
  const CAPSULE_TAG: Tag := "Capsule"

  class Bouncer {
    var colliderEnabled: bool
    var alpha: real
    var activationTime: real

    /// The sprite is opaque exactly while the collider is on, faded while it is off.
    ghost predicate Valid()
      reads this
    {
      activationTime >= 0.0
      && (colliderEnabled ==> alpha == SOLID_ALPHA)
      && (!colliderEnabled ==> alpha == FADED_ALPHA)
    }

    /// A bouncer as `OnEnable` leaves it.
    constructor ()
      ensures Valid() && colliderEnabled && activationTime == ACTIVATION_TIME
    {
      colliderEnabled := true;
      alpha := SOLID_ALPHA;
      activationTime := ACTIVATION_TIME;
    }

    /// `OnEnable`: opaque, collider on, full timer.
    method OnEnable()
      modifies this
      ensures Valid() && colliderEnabled && alpha == SOLID_ALPHA && activationTime == ACTIVATION_TIME
    {
      alpha := SOLID_ALPHA;
      colliderEnabled := true;
      activationTime := ACTIVATION_TIME;
    }

    /// `Deactivate`: faded, collider off, full timer.
    method Deactivate()
      modifies this
      ensures Valid() && !colliderEnabled && alpha == FADED_ALPHA && activationTime == ACTIVATION_TIME
    {
      alpha := FADED_ALPHA;
      colliderEnabled := false;
      activationTime := ACTIVATION_TIME;
    }

    /// `Activate`: opaque and solid again; the timer is left alone.
    method Activate()
      requires Valid()
      modifies this`alpha, this`colliderEnabled
      ensures Valid() && colliderEnabled && alpha == SOLID_ALPHA
    {
      alpha := SOLID_ALPHA;
      colliderEnabled := true;
    }

    /** `ActivationTimer`, run every frame: a running timer counts down and stops
        at zero; once it is at zero a switched-off collider is switched back on. */
    method ActivationTimer(dt: real)
      requires Valid() && dt >= 0.0
      modifies this
      ensures Valid()
      ensures activationTime == TimerAfter(old(activationTime), dt)
      ensures old(activationTime) > 0.0 ==> colliderEnabled == old(colliderEnabled)
      ensures old(activationTime) <= 0.0 ==> colliderEnabled
      ensures colliderEnabled && !old(colliderEnabled) ==> old(activationTime) == 0.0
    {
      if activationTime > 0.0 {
        activationTime := CountDown(activationTime, dt);
      } else if !colliderEnabled {
        Activate();
      }
    }

    /// `OnCollisionEnter2D`: only a capsule switches the bouncer off.
    method OnCollisionEnter2D(tag: Tag)
      requires Valid()
      modifies this
      ensures Valid()
      ensures tag == CAPSULE_TAG ==> !colliderEnabled && activationTime == ACTIVATION_TIME
      ensures tag != CAPSULE_TAG ==> unchanged(this)
    {
      if tag == CAPSULE_TAG {
        Deactivate();
      }
    }
  }

  /// The timer value `ActivationTimer` leaves after one frame: it counts down while positive.
  function TimerAfter(t: real, dt: real): real
    requires dt >= 0.0
  {
    if t > 0.0 then CountDown(t, dt) else t
  }

  /// The timer after a run of frames.
  function TimerAfterFrames(t: real, dts: seq<real>): real
    requires FrameTimes(dts)
    decreases |dts|
  {
    if dts == [] then t else TimerAfterFrames(TimerAfter(t, dts[0]), dts[1..])
  }

  /** A switched-off bouncer's timer never goes below zero, and has reached
      zero, so that the next frame switches the collider back on, once the
      frames add up to the timer's value. */
  lemma {:induction false} TimerRunsOut(t: real, dts: seq<real>)
    requires FrameTimes(dts)
    requires t >= 0.0
    ensures TimerAfterFrames(t, dts) >= 0.0
    ensures Elapsed(dts) >= t ==> TimerAfterFrames(t, dts) == 0.0
    decreases |dts|
  {
    if dts != [] {
      ElapsedNonNegative(dts[1..]);
      TimerRunsOut(TimerAfter(t, dts[0]), dts[1..]);
    }
  }
}
