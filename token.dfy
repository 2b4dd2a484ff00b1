/// The collectable token (Token.cs). Its two calls into the round controller,
/// `tokensEarned++` on collection and `ResetTokenSpawnTimer` on
/// deactivation, are reported to the caller as results; `Gameplay.Round`
/// applies them.
module Tokens {
  import opened Engine

  const TIME_MAX: real := 10.0
  /// Remaining time below which an uncollected token starts blinking.
  const BLINK_TIME: real := 5.0
  /// Remaining time after collection, while the token rises away.
  const COLLECTED_TIME: real := 1.5
  const CAPSULE_TAG: Tag := "Capsule"

  class Token {
    var active: bool
    var timeUntilDisappear: real
    var timeRunning: bool
    var startBlinking: bool
    var isCollected: bool
    /// The `Blink` coroutine is running.
    var blinking: bool
    /// The `Rise` coroutine is running.
    var rising: bool
    /// Opacity of the sprite.
    var alpha: real

    ghost predicate Valid()
      reads this
    {
      timeUntilDisappear >= 0.0 && (blinking ==> startBlinking) && (!active ==> !blinking && !rising)
    }

    /// A token placed in the level, inactive until the controller spawns it.
    constructor ()
      ensures Valid() && !active && !blinking && !rising
    {
      active := false;
      timeUntilDisappear := 0.0;
      timeRunning := true;
      startBlinking := false;
      isCollected := false;
      blinking := false;
      rising := false;
      alpha := 1.0;
    }

    /// `OnEnable`: a full ten seconds, running, not blinking, not collected, opaque.
    method OnEnable()
      requires Valid()
      modifies this
      ensures Valid() && active == old(active)
      ensures timeUntilDisappear == TIME_MAX && timeRunning && !startBlinking && !isCollected
      ensures alpha == 1.0 && !blinking && rising == old(rising)
    {
      timeUntilDisappear := TIME_MAX;
      timeRunning := true;
      startBlinking := false;
      isCollected := false;
      alpha := 1.0;
      blinking := false;
    }

    /// `SetActive(true)`: only an inactive token runs `OnEnable`.
    method Show()
      requires Valid()
      modifies this
      ensures Valid() && active
      ensures old(active) ==> unchanged(this)
      ensures !old(active) ==> timeUntilDisappear == TIME_MAX && timeRunning && !startBlinking && !isCollected && alpha == 1.0
    {
      if !active {
        active := true;
        OnEnable();
      }
    }

    /// `SetActive(false)`: the token disappears and its coroutines stop.
    method Hide()
      requires Valid()
      modifies this
      ensures Valid() && !active && !blinking && !rising
      ensures timeUntilDisappear == old(timeUntilDisappear) && isCollected == old(isCollected)
      ensures startBlinking == old(startBlinking) && timeRunning == old(timeRunning) && alpha == old(alpha)
    {
      active := false;
      blinking := false;
      rising := false;
    }

    /** `Update`: while the timer runs it counts down to zero; an uncollected
        token starts blinking once less than five seconds remain; at zero the
        token deactivates, and `deactivated` asks the controller to reset its
        spawn timer. */
    method Update(dt: real) returns (deactivated: bool)
      requires Valid() && active && dt >= 0.0
      modifies this
      ensures Valid()
      ensures deactivated <==> old(timeRunning) && old(timeUntilDisappear) <= 0.0
      ensures !old(timeRunning) ==> unchanged(this)
      ensures deactivated ==> !active && !blinking && !rising && isCollected == old(isCollected)
      ensures old(timeRunning) && old(timeUntilDisappear) > 0.0 ==>
        && active
        && timeUntilDisappear == CountDown(old(timeUntilDisappear), dt)
        && isCollected == old(isCollected)
        && startBlinking == (old(startBlinking) || (!isCollected && timeUntilDisappear < BLINK_TIME))
      ensures !old(startBlinking) && startBlinking ==> !isCollected && timeUntilDisappear < BLINK_TIME
    {
      deactivated := false;
      if !timeRunning {
        return;
      }
      if timeUntilDisappear > 0.0 {
        timeUntilDisappear := CountDown(timeUntilDisappear, dt);
        if isCollected {
          return;
        }
        if timeUntilDisappear < BLINK_TIME && !startBlinking {
          Blink();
        }
      } else {
        Hide();
        deactivated := true;
      }
    }

    /// Starting `Blink`: its first statement marks blinking as started.
    method Blink()
      requires Valid() && active
      modifies this`startBlinking, this`blinking
      ensures Valid() && startBlinking && blinking
    {
      startBlinking := true;
      blinking := true;
    }

    /** `OnTriggerEnter2D`: the first contact with a capsule collects the token,
        leaves it 1.5 seconds, stops blinking and starts it rising at full
        opacity; `collected` asks the controller to count one more token.
        Later contacts and other tags change nothing. */
    method OnTriggerEnter2D(tag: Tag) returns (collected: bool)
      requires Valid() && active
      modifies this
      ensures Valid() && active
      ensures collected <==> !old(isCollected) && tag == CAPSULE_TAG
      ensures collected ==> isCollected && timeUntilDisappear == COLLECTED_TIME && !blinking && rising
      ensures collected ==> alpha == 1.0
      ensures collected ==> timeRunning == old(timeRunning) && startBlinking == old(startBlinking)
      ensures !collected ==> unchanged(this)
    {
      collected := false;
      if isCollected {
        return;
      }
      if tag == CAPSULE_TAG {
        isCollected := true;
        timeUntilDisappear := COLLECTED_TIME;
        collected := true;
        blinking := false;
        rising := true;
        alpha := 1.0;
      }
    }
  }
}
