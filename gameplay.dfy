/// The round controller of the current game (Managers/GameplayManager.cs)
/// together with the capsule behaviour that calls into it (Levels/Capsule.cs).
/// A round owns two pools of capsules, the main dispenser of fifteen and ten
/// fake capsules; the dispenser releases a capsule every twenty seconds,
/// capsules score when they bounce off a slider, and the round ends when the
/// last capsule has fallen into the dead zone.
module Gameplay {
  import opened Engine
  import opened Capsules
  import Tokens
  import Profile

  const CAPSULE_TOTAL: int := 15
  const FAKE_CAPSULE_TOTAL: int := 10
  const TOKEN_SPAWN_INTERVAL: real := 20.0
  const COUNTDOWN_TIME: real := 3.0
  const FAKE_SPAWN_TIME: real := 8.0
  const FAKE_FAST_SPAWN_TIME: real := 4.0
  /// The time between two dispenses while the dispenser is not empty.
  const DISPENSE_INTERVAL: real := 20.0
  /// The dispenser count at which the final stretch begins.
  const FINAL_STRETCH_COUNT: int := 5

  // ---------------------------------------------------------------------------
  // Dispensing

  /// `LastThreeCapsules`: one or two capsules are left, too few to keep back.
  predicate LastThreeCapsules(count: int): (r: bool)
    ensures r <==> count == 1 || count == 2
  {
    0 < count < 3
  }

  /** The dispenser count after one `DispenseCapsule`: one capsule leaves, and
      when that leaves one or two, they leave as well. */
  function AfterDispense(count: int): (r: int)
    requires count >= 1
    ensures 0 <= r < count && !LastThreeCapsules(r)
    ensures r == count - 1 || r == 0
    ensures count - 1 >= 3 ==> r == count - 1
  {
    if LastThreeCapsules(count - 1) then 0 else count - 1
  }

  /// The number of dispenses that empty a dispenser holding `count` capsules.
  function DispensesUntilEmpty(count: nat): nat
    decreases count
  {
    if count == 0 then 0 else 1 + DispensesUntilEmpty(AfterDispense(count))
  }

  /** A dispenser with at least three capsules empties in `count - 2`
      dispenses, the last of which releases three capsules at once: a full
      dispenser of fifteen takes thirteen. */
  lemma {:induction false} DispensesFromFull(count: nat)
    requires count >= 3
    ensures DispensesUntilEmpty(count) == count - 2
    decreases count
  {
    if count > 3 {
      DispensesFromFull(count - 1);
    } else {
      assert AfterDispense(3) == 0;
    }
  }

  /** A capsule taken from the dispenser: activated, which zeroes the points of
      an inactive one, and starred exactly when the dispense grants a star. */
  function Released(c: Capsule, star: bool): (r: Capsule)
    ensures r.active && r.starred == star && r.faked == c.faked
    ensures !c.active ==> r.points == 0
    ensures r.gravityScale == c.gravityScale
  {
    Enabled(c).(starred := star)
  }

  /** The release as the source writes it: the star flag is only ever set, so
      a capsule that kept its star when a reset deactivated it comes back
      starred without any grant. */
  function ReleasedAsWritten(c: Capsule, star: bool): (r: Capsule)
    ensures r.active && r.starred == (c.starred || star)
  {
    if star then Starred(Enabled(c)) else Enabled(c)
  }

  /** A star capsule still in play when the level is reset is deactivated with
      its star; the next round releases it from the dispenser without a grant,
      and as written it still scores as a star. */
  lemma StarOutlivesReset()
    ensures var inPlay := Starred(Enabled(IDLE));
            var afterReset := Disabled(inPlay);
            !afterReset.active && ReleasedAsWritten(afterReset, false).starred
            && !Released(afterReset, false).starred
  {
  }

  /// A star is granted only to a dispense from the timer, while more than two capsules remain.
  predicate GrantsStar(isCompleted: bool, countBefore: int)
  {
    isCompleted && countBefore > 2
  }

  // ---------------------------------------------------------------------------
  // Pools

  /// The number of active capsules in a pool.
  function CountActive(s: seq<Capsule>): (r: nat)
    ensures r <= |s|
    ensures r == 0 <==> forall i :: 0 <= i < |s| ==> !s[i].active
    decreases |s|
  {
    if s == [] then 0
    else
      var init := s[..|s| - 1];
      assert forall i :: 0 <= i < |init| ==> init[i] == s[i];
      CountActive(init) + (if s[|s| - 1].active then 1 else 0)
  }

  /// Inactive capsules at the end of a pool do not count.
  lemma {:induction false} CountActiveInactiveTail(s: seq<Capsule>, k: int)
    requires 0 <= k <= |s|
    requires forall i :: k <= i < |s| ==> !s[i].active
    ensures CountActive(s) == CountActive(s[..k])
    decreases |s|
  {
    if |s| > k {
      var init := s[..|s| - 1];
      assert init[..k] == s[..k];
      CountActiveInactiveTail(init, k);
    } else {
      assert s[..k] == s;
    }
  }

  /// The index of the first inactive capsule of a pool, or the pool's length when all are active.
  function FirstInactive(s: seq<Capsule>): (r: int)
    ensures 0 <= r <= |s|
    ensures forall k :: 0 <= k < r ==> s[k].active
    ensures r < |s| ==> !s[r].active
    decreases |s|
  {
    if s == [] then 0
    else if !s[0].active then 0
    else 1 + FirstInactive(s[1..])
  }

  /** Loops over the first `total` capsules of a pool and counts the active
      ones, as `GetCapsulesInGame`, `GetFakeCapsulesInGame` and
      `NoFakeCapsulesInGame` each do. */
  method CountInGame(pool: array<Capsule>, total: int) returns (remaining: int)
    requires 0 <= total <= pool.Length
    ensures remaining == CountActive(pool[..total])
  {
    remaining := 0;
    var i := 0;
    while i < total
      invariant 0 <= i <= total
      invariant remaining == CountActive(pool[..i])
    {
      assert pool[..i + 1][..i] == pool[..i];
      if pool[i].active {
        remaining := remaining + 1;
      }
      i := i + 1;
    }
  }

  /// `SetActive(false)` on every capsule of a pool, as the reset loops do.
  method DeactivateAll(pool: array<Capsule>)
    modifies pool
    ensures forall i :: 0 <= i < pool.Length ==> pool[i] == Disabled(old(pool[i]))
  {
    var i := 0;
    while i < pool.Length
      invariant 0 <= i <= pool.Length
      invariant forall k :: 0 <= k < i ==> pool[k] == Disabled(old(pool[k]))
      invariant forall k :: i <= k < pool.Length ==> pool[k] == old(pool[k])
    {
      pool[i] := Disabled(pool[i]);
      i := i + 1;
    }
  }

  // ---------------------------------------------------------------------------
  // Score

  /// `SetScore`: add, then clamp at zero.
  function AddScore(score: int, s: int): (r: int)
    ensures r >= 0 && r >= score + s
    ensures score + s >= 0 ==> r == score + s
    ensures score + s < 0 ==> r == 0
  {
    if score + s > 0 then score + s else 0
  }

  /// One collision with a capsule: its own update, then the score for a scoring bounce.
  function Bounce(c: Capsule, score: int, tag: Tag, v: Vec2): (Capsule, int)
  {
    var c1 := Collided(c, tag, v);
    (c1, if ScoringBounce(tag, v) then AddScore(score, c1.points) else score)
  }

  /// A run of slider bounces of one capsule.
  function SliderBounces(c: Capsule, score: int, vs: seq<Vec2>): (Capsule, int)
    decreases |vs|
  {
    if vs == [] then (c, score)
    else
      var b := Bounce(c, score, SLIDER_TAG, vs[0]);
      SliderBounces(b.0, b.1, vs[1..])
  }

  predicate AllScoring(vs: seq<Vec2>)
  {
    forall k :: 0 <= k < |vs| ==> ScoringBounce(SLIDER_TAG, vs[k])
  }

  /// One scoring bounce of a normal or star capsule.
  lemma ScoringStep(c: Capsule, score: int, v: Vec2)
    requires !c.faked || c.starred
    requires c.points >= 0 && score >= 0 && ScoringBounce(SLIDER_TAG, v)
    ensures var d := if c.starred then 3 else 1;
            var b := Bounce(c, score, SLIDER_TAG, v);
            && b.0.points == c.points + d && b.1 == score + c.points + d
            && b.0.gravityScale == c.gravityScale + 1.0
            && b.0.starred == c.starred && b.0.faked == c.faked
  {
  }

  /// The sum behind `ScoringRun`: one more bounce of value `p + d` on top of `k - 1` from `p + d`.
  lemma RunSum(s: int, p: int, d: int, k: int, s1: int)
    requires k >= 1
    requires 2 * s1 == 2 * (s + p + d) + 2 * (k - 1) * (p + d) + d * (k - 1) * k
    ensures 2 * s1 == 2 * s + 2 * k * p + d * k * (k + 1)
  {
    assert 2 * (k - 1) * (p + d) == 2 * k * p - 2 * p + 2 * k * d - 2 * d;
    assert d * (k - 1) * k == d * k * k - d * k;
    assert d * k * (k + 1) == d * k * k + d * k;
  }

  /** A normal or star capsule that scores `k` times in a row, starting from
      `p` points, ends on `p + k * d` points, where `d` is 1 or 3, and its
      bounces add `p + d`, `p + 2d`, ... to the score; each bounce also raises
      its gravity by one step. A capsule just released starts from 0, so its
      k-th bounce adds `k * d`. */
  lemma {:induction false} ScoringRun(c: Capsule, score: int, vs: seq<Vec2>)
    requires !c.faked || c.starred
    requires c.points >= 0 && score >= 0 && AllScoring(vs)
    ensures var d := if c.starred then 3 else 1;
            var k := |vs|;
            var r := SliderBounces(c, score, vs);
            && r.0.points == c.points + k * d
            && 2 * r.1 == 2 * score + 2 * k * c.points + d * k * (k + 1)
            && r.0.gravityScale == c.gravityScale + k as real
            && r.0.starred == c.starred && r.0.faked == c.faked
    decreases |vs|
  {
    if vs != [] {
      var d := if c.starred then 3 else 1;
      var k := |vs|;
      var b := Bounce(c, score, SLIDER_TAG, vs[0]);
      ScoringStep(c, score, vs[0]);
      ScoringRun(b.0, b.1, vs[1..]);
      var r := SliderBounces(b.0, b.1, vs[1..]);
      assert SliderBounces(c, score, vs) == r;
      assert r.0.points == c.points + d + (k - 1) * d;
      RunSum(score, c.points, d, k, r.1);
    }
  }

  /** A fake capsule loses five points per scoring bounce, so its bounces never
      raise the score, which stays at least zero. */
  lemma {:induction false} FakeRun(c: Capsule, score: int, vs: seq<Vec2>)
    requires c.faked && !c.starred
    requires c.points <= 0 && score >= 0 && AllScoring(vs)
    ensures var r := SliderBounces(c, score, vs);
            r.0.points == c.points - 5 * |vs| && 0 <= r.1 <= score
    decreases |vs|
  {
    if vs != [] {
      var b := Bounce(c, score, SLIDER_TAG, vs[0]);
      FakeRun(b.0, b.1, vs[1..]);
    }
  }

  /// A collision that is not a scoring bounce leaves the score as it is.
  lemma NonScoringBounce(c: Capsule, score: int, tag: Tag, v: Vec2)
    requires tag != SLIDER_TAG || InDeadZone(v.y)
    ensures Bounce(c, score, tag, v).1 == score
    ensures Bounce(c, score, tag, v).0.points == c.points
  {
    ScoringBounceRaw(tag, v);
  }

  // ---------------------------------------------------------------------------
  // Results tally

  /// `GetRate`: the step by which the shown total climbs, by how far it has climbed.
  function GetRate(currentScore: int): (r: int)
    ensures 2 <= r <= 32
  {
    if currentScore < 100 then 2
    else if currentScore < 500 then 4
    else if currentScore < 1000 then 8
    else if currentScore < 2500 then 16
    else 32
  }

  /// The step never shrinks as the total grows.
  lemma GetRateMonotone(a: int, b: int)
    requires a <= b
    ensures GetRate(a) <= GetRate(b)
  {
  }

  /// `AddScorePerFrame`: one step up, never past the score.
  function AddScorePerFrame(currentScore: int, score: int): (r: int)
    ensures r <= score
    ensures currentScore < score ==> currentScore < r
    ensures r == score || r == currentScore + GetRate(currentScore)
  {
    var next := currentScore + GetRate(currentScore);
    if next < score then next else score
  }

  /// The totals the results screen shows, one per frame, while the count-up runs from `current`.
  function Tally(current: int, score: int): seq<int>
    decreases score - current
  {
    if current >= score then []
    else
      var next := AddScorePerFrame(current, score);
      [next] + Tally(next, score)
  }

  /** The count-up is strictly increasing, stays above where it started and at
      most the score, and its last frame shows the score exactly. */
  lemma {:induction false} TallyLandsOnScore(current: int, score: int)
    ensures var t := Tally(current, score);
            && (|t| == 0 <==> current >= score)
            && (forall k :: 0 <= k < |t| ==> current < t[k] <= score)
            && (forall j, k :: 0 <= j < k < |t| ==> t[j] < t[k])
            && (|t| > 0 ==> t[|t| - 1] == score)
    decreases score - current
  {
    if current < score {
      var next := AddScorePerFrame(current, score);
      TallyLandsOnScore(next, score);
    }
  }

  // ---------------------------------------------------------------------------
  // The end-of-round decision

  datatype ExitOutcome = Continue | Refill | End

  /** What happens after a capsule has left through the dead zone: with no
      capsule left in play the game ends if the dispenser and the fake pool
      are empty too, and otherwise a capsule is dispensed unless only fakes
      remain; with capsules still in play nothing happens. */
  function ExitDecision(capsulesLeft: nat, dispenserCount: int, fakesLeft: nat): (r: ExitOutcome)
    ensures r == End <==> capsulesLeft == 0 && dispenserCount == 0 && fakesLeft == 0
    ensures r == Refill <==> capsulesLeft == 0 && dispenserCount != 0
  {
    if capsulesLeft == 0 then
      if dispenserCount == 0 then
        if fakesLeft == 0 then End else Continue
      else Refill
    else Continue
  }

  // ---------------------------------------------------------------------------
  // The round

  class Round {
    const capsules: array<Capsule>
    const fakeCapsules: array<Capsule>
    const token: Tokens.Token

    var score: int
    var tokensEarned: int
    var capsuleDispenserCount: int
    var timeUntilDispense: real
    var timeUntilDispenseFake: real
    var timeUntilSpawnToken: real
    var fullTime: real
    var gameOver: bool
    var gameStarted: bool
    var finalStretch: bool
    var timeStopped: bool
    /// Some slider is being dragged.
    var onDrag: bool
    /// `Time.timeScale` is 0: the pause menu is open.
    var paused: bool
    /// The start countdown is running, with this much time left.
    var countingDown: bool
    var timeUntilStartGame: real
    /// The ID of the level being played.
    var levelID: int
    // What the results screen shows.
    var totalScoreShown: int
    var bestScoreShown: int
    var starIconShown: bool
    var tokenCountShown: int

    /** The round's invariant: the pools have their sizes; the dispenser never
        holds one or two capsules; the final stretch is on exactly when five or
        fewer remain; the capsules still in the dispenser are inactive; no main
        capsule is fake and every active fake capsule is; the score and the
        timers are never negative. */
    ghost predicate Valid()
      reads this, capsules, fakeCapsules, token
    {
      && capsules.Length == CAPSULE_TOTAL && fakeCapsules.Length == FAKE_CAPSULE_TOTAL
      && capsules != fakeCapsules
      && 0 <= capsuleDispenserCount <= CAPSULE_TOTAL
      && !LastThreeCapsules(capsuleDispenserCount)
      && (finalStretch <==> capsuleDispenserCount <= FINAL_STRETCH_COUNT)
      && (capsuleDispenserCount == 0 ==> timeUntilDispense == 0.0)
      && (forall i :: CAPSULE_TOTAL - capsuleDispenserCount <= i < CAPSULE_TOTAL ==> !capsules[i].active)
      && (forall i :: 0 <= i < CAPSULE_TOTAL ==> !capsules[i].faked)
      && (forall i :: 0 <= i < FAKE_CAPSULE_TOTAL ==> fakeCapsules[i].active ==> fakeCapsules[i].faked)
      && score >= 0 && tokensEarned >= 0
      && timeUntilDispense >= 0.0 && timeUntilDispenseFake >= 0.0
      && timeUntilSpawnToken >= 0.0 && timeUntilStartGame >= 0.0
      && token.Valid()
    }

    /// A round as the scene loads it: the state `ResetMainVariables` leaves, every capsule idle.
    constructor (token: Tokens.Token)
      requires token.Valid()
      ensures Valid() && this.token == token
      ensures fresh(capsules) && fresh(fakeCapsules)
      ensures !gameStarted && !gameOver && capsuleDispenserCount == CAPSULE_TOTAL && score == 0
    {
      this.token := token;
      capsules := new Capsule[CAPSULE_TOTAL](_ => IDLE);
      fakeCapsules := new Capsule[FAKE_CAPSULE_TOTAL](_ => IDLE);
      score, tokensEarned := 0, 0;
      capsuleDispenserCount := CAPSULE_TOTAL;
      timeUntilDispense, timeUntilDispenseFake := DISPENSE_INTERVAL, FAKE_SPAWN_TIME;
      timeUntilSpawnToken := TOKEN_SPAWN_INTERVAL;
      fullTime := 0.0;
      gameOver, gameStarted, finalStretch := false, false, false;
      timeStopped, onDrag, paused := true, false, false;
      countingDown, timeUntilStartGame := false, 0.0;
      levelID := 0;
      totalScoreShown, bestScoreShown, starIconShown, tokenCountShown := 0, 0, false, 0;
    }

    /// `GameOver`: the round has ended or has not started.
    predicate GameOver(): (r: bool)
      reads this
      ensures !r <==> gameStarted && !gameOver
    {
      gameOver || !gameStarted
    }

    /// `DispenserIsEmpty`.
    predicate DispenserIsEmpty(): (r: bool)
      reads this
      ensures r <==> capsuleDispenserCount == 0
    {
      capsuleDispenserCount == 0
    }

    /// The frame time the scripts see: zero while the game is paused.
    function FrameTime(dt: real): (r: real)
      reads this
      requires dt >= 0.0
      ensures r >= 0.0 && (paused ==> r == 0.0) && (!paused ==> r == dt)
    {
      if paused then 0.0 else dt
    }

    /// The main pool or the fake pool.
    function Pool(fake: bool): array<Capsule>
    {
      if fake then fakeCapsules else capsules
    }

    /** The state one `DispenseCapsule` leaves, from the main pool `pool`, the
        dispenser count `count` and the final-stretch flag `stretch` it
        started from: the capsules at indices `15 - count` upwards are
        released, one per decrement, each starred when the grant holds for
        the count before its decrement; the dispense timer restarts at twenty
        seconds, or stays at zero once the dispenser is empty. */
    ghost predicate DispensedFrom(pool: seq<Capsule>, count: int, stretch: bool, isCompleted: bool)
      reads this, capsules
    {
      && |pool| == capsules.Length
      && 1 <= count
      && capsuleDispenserCount == AfterDispense(count)
      && (forall i :: 0 <= i < |pool| ==>
            capsules[i] == (if CAPSULE_TOTAL - count <= i < CAPSULE_TOTAL - capsuleDispenserCount
                            then Released(pool[i], GrantsStar(isCompleted, CAPSULE_TOTAL - i))
                            else pool[i]))
      && finalStretch == (stretch || capsuleDispenserCount == FINAL_STRETCH_COUNT)
      && !timeStopped
      && timeUntilDispense == (if capsuleDispenserCount == 0 then 0.0 else DISPENSE_INTERVAL)
      && fullTime == timeUntilDispense
    }

    /// One pass of the do-while body: release the capsule at `15 - count`, then decrement.
    method ReleaseNext(isCompleted: bool)
      requires capsules.Length == CAPSULE_TOTAL && 1 <= capsuleDispenserCount <= CAPSULE_TOTAL
      modifies capsules, this`capsuleDispenserCount
      ensures capsuleDispenserCount == old(capsuleDispenserCount) - 1
      ensures forall i :: 0 <= i < CAPSULE_TOTAL ==>
        capsules[i] == (if i == CAPSULE_TOTAL - old(capsuleDispenserCount)
                        then Released(old(capsules[i]), GrantsStar(isCompleted, old(capsuleDispenserCount)))
                        else old(capsules[i]))
    {
      var index := CAPSULE_TOTAL - capsuleDispenserCount;
      capsules[index] := Released(capsules[index], GrantsStar(isCompleted, capsuleDispenserCount));
      capsuleDispenserCount := capsuleDispenserCount - 1;
    }

    /** `DispenseCapsule`: nothing while the game is over. Otherwise the
        do-while releases the next capsule and keeps going while one or two
        remain; then the final stretch starts when five remain, the clock runs
        again and the dispense timer restarts. The source indexes the pool at
        `15 - count`, so a running game must not dispense from an empty
        dispenser; none of its callers does. */
    method DispenseCapsule(isCompleted: bool)
      requires Valid() && (GameOver() || capsuleDispenserCount >= 1)
      modifies capsules, this`capsuleDispenserCount, this`finalStretch, this`timeStopped,
               this`timeUntilDispense, this`fullTime
      ensures Valid()
      ensures old(GameOver()) ==> unchanged(this) && unchanged(capsules)
      ensures !old(GameOver()) ==>
        DispensedFrom(old(capsules[..]), old(capsuleDispenserCount), old(finalStretch), isCompleted)
    {
      if GameOver() {
        return;
      }
      ReleaseNext(isCompleted);
      while LastThreeCapsules(capsuleDispenserCount)
        invariant 0 <= capsuleDispenserCount <= old(capsuleDispenserCount) - 1
        invariant old(capsuleDispenserCount) - 1 < 3 || capsuleDispenserCount == old(capsuleDispenserCount) - 1
        invariant finalStretch == old(finalStretch)
        invariant forall i :: 0 <= i < CAPSULE_TOTAL ==>
          capsules[i] == (if CAPSULE_TOTAL - old(capsuleDispenserCount) <= i < CAPSULE_TOTAL - capsuleDispenserCount
                          then Released(old(capsules[i]), GrantsStar(isCompleted, CAPSULE_TOTAL - i))
                          else old(capsules[i]))
        decreases capsuleDispenserCount
      {
        ReleaseNext(isCompleted);
      }
      assert capsuleDispenserCount == AfterDispense(old(capsuleDispenserCount));
      if capsuleDispenserCount == FINAL_STRETCH_COUNT && !finalStretch {
        finalStretch := true;
      }
      timeStopped := false;
      timeUntilDispense := if DispenserIsEmpty() then 0.0 else DISPENSE_INTERVAL;
      fullTime := timeUntilDispense;
    }

    /** `CapsuleDispenserTimer`: idle while the game is over, the dispenser is
        empty or the clock is stopped; otherwise the timer counts down, and a
        frame that finds it at zero dispenses from the timer, which may grant a
        star. */
    method CapsuleDispenserTimer(dt: real)
      requires Valid() && dt >= 0.0
      modifies capsules, this`capsuleDispenserCount, this`finalStretch, this`timeStopped,
               this`timeUntilDispense, this`fullTime
      ensures Valid()
      ensures old(GameOver() || DispenserIsEmpty() || timeStopped) ==> unchanged(this) && unchanged(capsules)
      ensures !old(GameOver() || DispenserIsEmpty() || timeStopped) && old(timeUntilDispense) > 0.0 ==>
        && timeUntilDispense == CountDown(old(timeUntilDispense), dt)
        && fullTime == old(fullTime) && timeStopped == old(timeStopped) && finalStretch == old(finalStretch)
        && capsuleDispenserCount == old(capsuleDispenserCount) && unchanged(capsules)
      ensures !old(GameOver() || DispenserIsEmpty() || timeStopped) && old(timeUntilDispense) <= 0.0 ==>
        DispensedFrom(old(capsules[..]), old(capsuleDispenserCount), old(finalStretch), true)
    {
      if GameOver() || DispenserIsEmpty() || timeStopped {
        return;
      }
      if timeUntilDispense > 0.0 {
        timeUntilDispense := CountDown(timeUntilDispense, dt);
      } else {
        DispenseCapsule(true);
      }
    }

    /// `ResetTokenSpawnTimer`.
    method ResetTokenSpawnTimer()
      modifies this`timeUntilSpawnToken
      ensures timeUntilSpawnToken == TOKEN_SPAWN_INTERVAL
    {
      timeUntilSpawnToken := TOKEN_SPAWN_INTERVAL;
    }

    /** `SpawnToken`: the token is shown, which restarts it only if it was
        hidden, and the spawn timer restarts. Its random spawn point is not
        modelled. */
    method SpawnToken()
      requires Valid()
      modifies this`timeUntilSpawnToken, token
      ensures Valid() && token.active && timeUntilSpawnToken == TOKEN_SPAWN_INTERVAL
      ensures old(token.active) ==> unchanged(token)
      ensures !old(token.active) ==>
        token.timeUntilDisappear == Tokens.TIME_MAX && token.timeRunning && !token.isCollected
    {
      token.Show();
      timeUntilSpawnToken := TOKEN_SPAWN_INTERVAL;
    }

    /// `TokenSpawnTimer`: idle while the game is over; otherwise counts down and spawns the token at zero.
    method TokenSpawnTimer(dt: real)
      requires Valid() && dt >= 0.0
      modifies this`timeUntilSpawnToken, token
      ensures Valid()
      ensures old(GameOver()) ==> unchanged(this) && unchanged(token)
      ensures !old(GameOver()) && old(timeUntilSpawnToken) > 0.0 ==>
        timeUntilSpawnToken == CountDown(old(timeUntilSpawnToken), dt) && unchanged(token)
      ensures !old(GameOver()) && old(timeUntilSpawnToken) <= 0.0 ==>
        token.active && timeUntilSpawnToken == TOKEN_SPAWN_INTERVAL
    {
      if GameOver() {
        return;
      }
      if timeUntilSpawnToken > 0.0 {
        timeUntilSpawnToken := CountDown(timeUntilSpawnToken, dt);
      } else {
        SpawnToken();
      }
    }

    /** `SetFakeSpawnTimer`: fake capsules come every four seconds in the final
        stretch, that is once five or fewer capsules remain, and every eight
        before. */
    method SetFakeSpawnTimer()
      requires Valid()
      modifies this`timeUntilDispenseFake
      ensures Valid()
      ensures timeUntilDispenseFake == FAKE_FAST_SPAWN_TIME <==> capsuleDispenserCount <= FINAL_STRETCH_COUNT
      ensures timeUntilDispenseFake == FAKE_SPAWN_TIME <==> capsuleDispenserCount > FINAL_STRETCH_COUNT
    {
      if finalStretch {
        timeUntilDispenseFake := FAKE_FAST_SPAWN_TIME;
      } else {
        timeUntilDispenseFake := FAKE_SPAWN_TIME;
      }
    }

    /** The state one `DispenseFakeCapsule` leaves from the fake pool `pool`:
        the first inactive fake capsule, if any, is activated and marked fake,
        and the fake timer restarts. */
    ghost predicate FakeDispensedFrom(pool: seq<Capsule>)
      reads this, fakeCapsules
    {
      && |pool| == fakeCapsules.Length
      && (var j := FirstInactive(pool);
          forall i :: 0 <= i < |pool| ==>
            fakeCapsules[i] == (if i == j then Faked(Enabled(pool[i])) else pool[i]))
      && timeUntilDispenseFake == (if finalStretch then FAKE_FAST_SPAWN_TIME else FAKE_SPAWN_TIME)
    }

    /** `DispenseFakeCapsule`: nothing while the game is over; otherwise the
        first inactive fake capsule enters play as a fake, and the fake timer
        restarts whether or not one was free. */
    method DispenseFakeCapsule()
      requires Valid()
      modifies fakeCapsules, this`timeUntilDispenseFake
      ensures Valid()
      ensures old(GameOver()) ==> unchanged(this) && unchanged(fakeCapsules)
      ensures !old(GameOver()) ==> FakeDispensedFrom(old(fakeCapsules[..]))
    {
      if GameOver() {
        return;
      }
      var i := 0;
      while i < fakeCapsules.Length
        invariant 0 <= i <= fakeCapsules.Length
        invariant forall k :: 0 <= k < i ==> fakeCapsules[k].active
        invariant unchanged(fakeCapsules)
      {
        if !fakeCapsules[i].active {
          fakeCapsules[i] := Faked(Enabled(fakeCapsules[i]));
          break;
        }
        i := i + 1;
      }
      SetFakeSpawnTimer();
    }

    /** `GetExistingCapsules`: how many capsules have left the dispenser, at
        least as many as are in play. */
    function GetExistingCapsules(): (r: int)
      reads this, capsules, fakeCapsules, token
      requires Valid()
      ensures 0 <= r <= CAPSULE_TOTAL
      ensures CountActive(capsules[..]) <= r
    {
      InPlayAtMostReleased();
      CAPSULE_TOTAL - capsuleDispenserCount
    }

    /// `GetCapsulesInGame`.
    method GetCapsulesInGame() returns (remaining: int)
      requires Valid()
      ensures remaining == CountActive(capsules[..])
      ensures remaining <= GetExistingCapsules()
    {
      remaining := CountInGame(capsules, CAPSULE_TOTAL);
      assert capsules[..CAPSULE_TOTAL] == capsules[..];
      InPlayAtMostReleased();
    }

    /// `NoCapsulesInGame`.
    method NoCapsulesInGame() returns (none: bool)
      requires Valid()
      ensures none <==> forall i :: 0 <= i < CAPSULE_TOTAL ==> !capsules[i].active
    {
      var remaining := GetCapsulesInGame();
      none := remaining == 0;
    }

    /// `GetFakeCapsulesInGame`.
    method GetFakeCapsulesInGame() returns (remaining: int)
      requires Valid()
      ensures remaining == CountActive(fakeCapsules[..])
    {
      remaining := CountInGame(fakeCapsules, fakeCapsules.Length);
      assert fakeCapsules[..fakeCapsules.Length] == fakeCapsules[..];
    }

    /// `NoFakeCapsulesInGame`.
    method NoFakeCapsulesInGame() returns (none: bool)
      requires Valid()
      ensures none <==> forall i :: 0 <= i < FAKE_CAPSULE_TOTAL ==> !fakeCapsules[i].active
    {
      var remaining := CountInGame(fakeCapsules, FAKE_CAPSULE_TOTAL);
      assert fakeCapsules[..FAKE_CAPSULE_TOTAL] == fakeCapsules[..];
      none := remaining == 0;
    }

    /// No more capsules are in play than have left the dispenser.
    lemma InPlayAtMostReleased()
      requires Valid()
      ensures CountActive(capsules[..]) <= CAPSULE_TOTAL - capsuleDispenserCount
    {
      CountActiveInactiveTail(capsules[..], CAPSULE_TOTAL - capsuleDispenserCount);
    }

    /** `FakeCapsuleDispenserTimer`: idle while the game is over, while no
        slider is held, or once neither a capsule in play nor one in the
        dispenser is left; otherwise the fake timer counts down and a frame that
        finds it at zero dispenses a fake capsule. */
    method FakeCapsuleDispenserTimer(dt: real)
      requires Valid() && dt >= 0.0
      modifies fakeCapsules, this`timeUntilDispenseFake
      ensures Valid()
      ensures old(GameOver() || !onDrag || (CountActive(capsules[..]) == 0 && DispenserIsEmpty())) ==>
        unchanged(this) && unchanged(fakeCapsules)
      ensures !old(GameOver() || !onDrag || (CountActive(capsules[..]) == 0 && DispenserIsEmpty())) ==>
        && (old(timeUntilDispenseFake) > 0.0 ==>
              timeUntilDispenseFake == CountDown(old(timeUntilDispenseFake), dt) && unchanged(fakeCapsules))
        && (old(timeUntilDispenseFake) <= 0.0 ==> FakeDispensedFrom(old(fakeCapsules[..])))
    {
      if GameOver() || !onDrag {
        return;
      }
      var none := NoCapsulesInGame();
      if none && capsuleDispenserCount == 0 {
        assert CountActive(capsules[..]) == 0;
        return;
      }
      if timeUntilDispenseFake > 0.0 {
        timeUntilDispenseFake := CountDown(timeUntilDispenseFake, dt);
      } else {
        DispenseFakeCapsule();
      }
    }

    /** `Update`: the three timers in turn, on the frame time the scripts see.
        Nothing changes while the game is over. In a running game the dispense
        and token timers act on the state the frame started from; the fake
        timer runs last, so whether any capsule is left is judged after this
        frame's dispense. */
    method Update(dt: real)
      requires Valid() && dt >= 0.0
      modifies capsules, fakeCapsules, token, this`capsuleDispenserCount, this`finalStretch,
               this`timeStopped, this`timeUntilDispense, this`fullTime, this`timeUntilSpawnToken,
               this`timeUntilDispenseFake
      ensures Valid()
      ensures old(GameOver()) ==>
        unchanged(this) && unchanged(capsules) && unchanged(fakeCapsules) && unchanged(token)
      ensures !old(GameOver() || DispenserIsEmpty() || timeStopped) && old(timeUntilDispense) > 0.0 ==>
        && timeUntilDispense == CountDown(old(timeUntilDispense), FrameTime(dt))
        && fullTime == old(fullTime) && timeStopped == old(timeStopped) && finalStretch == old(finalStretch)
        && capsuleDispenserCount == old(capsuleDispenserCount) && unchanged(capsules)
      ensures !old(GameOver() || DispenserIsEmpty() || timeStopped) && old(timeUntilDispense) <= 0.0 ==>
        DispensedFrom(old(capsules[..]), old(capsuleDispenserCount), old(finalStretch), true)
      ensures !old(GameOver()) && old(timeUntilSpawnToken) > 0.0 ==>
        timeUntilSpawnToken == CountDown(old(timeUntilSpawnToken), FrameTime(dt)) && unchanged(token)
      ensures !old(GameOver()) && old(timeUntilSpawnToken) <= 0.0 ==>
        token.active && timeUntilSpawnToken == TOKEN_SPAWN_INTERVAL
      ensures !old(GameOver()) && (!onDrag || (CountActive(capsules[..]) == 0 && DispenserIsEmpty())) ==>
        timeUntilDispenseFake == old(timeUntilDispenseFake) && unchanged(fakeCapsules)
      ensures !old(GameOver()) && onDrag && !(CountActive(capsules[..]) == 0 && DispenserIsEmpty()) ==>
        && (old(timeUntilDispenseFake) > 0.0 ==>
              timeUntilDispenseFake == CountDown(old(timeUntilDispenseFake), FrameTime(dt))
              && unchanged(fakeCapsules))
        && (old(timeUntilDispenseFake) <= 0.0 ==> FakeDispensedFrom(old(fakeCapsules[..])))
    {
      var t := FrameTime(dt);
      CapsuleDispenserTimer(t);
      TokenSpawnTimer(t);
      FakeCapsuleDispenserTimer(t);
    }

    /// `SetScore`: the score never drops below zero.
    method SetScore(s: int)
      requires Valid()
      modifies this`score
      ensures Valid() && score == AddScore(old(score), s)
    {
      score := score + s;
      score := if 0 > score then 0 else score;
    }

    /// `EndGame`: the round is over; the results follow once the walls have closed.
    method EndGame()
      requires Valid()
      modifies this`gameStarted, this`gameOver
      ensures Valid() && !gameStarted && gameOver && GameOver()
    {
      gameStarted := false;
      gameOver := true;
    }

    /** The capsule's `OnCollisionEnter2D`: the capsule's own update, then, for
        a scoring bounce, its new points are added to the score. */
    method CapsuleCollision(fake: bool, i: int, tag: Tag, v: Vec2)
      requires Valid() && 0 <= i < Pool(fake).Length && Pool(fake)[i].active
      modifies Pool(fake), this`score
      ensures Valid()
      ensures (Pool(fake)[i], score) == Bounce(old(Pool(fake)[i]), old(score), tag, v)
      ensures forall k :: 0 <= k < Pool(fake).Length && k != i ==> Pool(fake)[k] == old(Pool(fake)[k])
    {
      var pool := Pool(fake);
      pool[i] := Collided(pool[i], tag, v);
      if ScoringBounce(tag, v) {
        SetScore(pool[i].points);
      }
    }

    /// The capsule's `Update` on the frame time the scripts see, which also runs its pending `TurnOffLaunch`.
    method CapsuleUpdate(fake: bool, i: int, dt: real)
      requires Valid() && 0 <= i < Pool(fake).Length && Pool(fake)[i].active && dt >= 0.0
      modifies Pool(fake)
      ensures Valid()
      ensures Pool(fake)[i] == Updated(old(Pool(fake)[i]), FrameTime(dt))
      ensures forall k :: 0 <= k < Pool(fake).Length && k != i ==> Pool(fake)[k] == old(Pool(fake)[k])
    {
      var pool := Pool(fake);
      pool[i] := Updated(pool[i], FrameTime(dt));
    }

    /// The capsule's `Launch`, with the random sideways force as a parameter.
    method LaunchCapsule(fake: bool, i: int, forceX: real)
      requires Valid() && 0 <= i < Pool(fake).Length && Pool(fake)[i].active
      modifies Pool(fake)
      ensures Valid()
      ensures Pool(fake)[i] == Launched(old(Pool(fake)[i]), forceX)
      ensures forall k :: 0 <= k < Pool(fake).Length && k != i ==> Pool(fake)[k] == old(Pool(fake)[k])
    {
      var pool := Pool(fake);
      pool[i] := Launched(pool[i], forceX);
    }

    /** The capsule's `OnTriggerEnter2D` with the dead zone, up to the screen
        shake: the clock stops when this is the only capsule in play and it is
        not a fake; with screen shake on, the capsule is marked as leaving
        while the shake runs. `RecycleCapsule` and `AfterCapsuleExit` follow,
        at once without screen shake and when the shake ends with it. */
    method EnterDeadZone(fake: bool, i: int, screenShake: bool)
      requires Valid() && 0 <= i < Pool(fake).Length && Pool(fake)[i].active
      modifies Pool(fake), this`timeStopped
      ensures Valid()
      ensures timeStopped == (old(timeStopped) || (!fake && old(CountActive(capsules[..])) == 1))
      ensures Pool(fake)[i] == (if screenShake then old(Pool(fake)[i]).(exiting := true) else old(Pool(fake)[i]))
      ensures forall k :: 0 <= k < Pool(fake).Length && k != i ==> Pool(fake)[k] == old(Pool(fake)[k])
    {
      var inGame := GetCapsulesInGame();
      var pool := Pool(fake);
      if inGame == 1 && !pool[i].faked {
        timeStopped := true;
      }
      if screenShake {
        pool[i] := pool[i].(exiting := true);
      }
    }

    /// The capsule's reset at the end of its exit: points 0, gravity back to 50, star removed, deactivated.
    method RecycleCapsule(fake: bool, i: int)
      requires Valid() && 0 <= i < Pool(fake).Length && Pool(fake)[i].active
      modifies Pool(fake)
      ensures Valid()
      ensures Pool(fake)[i] == Recycled(old(Pool(fake)[i]))
      ensures forall k :: 0 <= k < Pool(fake).Length && k != i ==> Pool(fake)[k] == old(Pool(fake)[k])
    {
      var pool := Pool(fake);
      pool[i] := Recycled(pool[i]);
    }

    /** The end of the exit coroutine, once the capsule is recycled:
        `ExitDecision` on the capsules and fakes still in play and the
        dispenser count picks between ending the game, dispensing the next
        capsule (not from the timer, so without a star) and doing nothing. */
    method AfterCapsuleExit()
      requires Valid()
      modifies capsules, this`capsuleDispenserCount, this`finalStretch, this`timeStopped,
               this`timeUntilDispense, this`fullTime, this`gameStarted, this`gameOver
      ensures Valid()
      ensures var outcome := old(ExitDecision(CountActive(capsules[..]), capsuleDispenserCount,
                                              CountActive(fakeCapsules[..])));
              && (outcome == Continue ==> unchanged(this) && unchanged(capsules))
              && (outcome == End ==>
                    unchanged(capsules) && capsuleDispenserCount == old(capsuleDispenserCount)
                    && gameOver && !gameStarted)
              && (outcome == Refill ==>
                    gameOver == old(gameOver) && gameStarted == old(gameStarted)
                    && (old(GameOver()) ==> unchanged(this) && unchanged(capsules))
                    && (!old(GameOver()) ==>
                          DispensedFrom(old(capsules[..]), old(capsuleDispenserCount), old(finalStretch), false)))
    {
      var none := NoCapsulesInGame();
      if none {
        if DispenserIsEmpty() {
          var noFakes := NoFakeCapsulesInGame();
          if noFakes {
            EndGame();
          }
        } else {
          DispenseCapsule(false);
        }
      }
    }

    /** `TogglePause`: ignored before the game starts, and while the last
        capsule is on its way out (at most one capsule and one fake in play,
        an empty dispenser and the clock stopped); otherwise pauses or resumes. */
    method TogglePause()
      requires Valid()
      modifies this`paused
      ensures Valid()
      ensures paused != old(paused) <==>
        gameStarted && !(CountActive(capsules[..]) <= 1 && DispenserIsEmpty() && timeStopped
                         && CountActive(fakeCapsules[..]) <= 1)
    {
      if !gameStarted {
        return;
      }
      var inGame := GetCapsulesInGame();
      var fakesInGame := GetFakeCapsulesInGame();
      if inGame <= 1 && DispenserIsEmpty() && timeStopped && fakesInGame <= 1 {
        return;
      }
      paused := !paused;
    }

    /** `ResetMainVariables`: a new round's state, with the dispenser full,
        the clock stopped, the final stretch off, the results hidden and every
        capsule and the token deactivated. */
    method ResetMainVariables()
      requires Valid()
      modifies capsules, fakeCapsules, token, this`gameStarted, this`gameOver, this`onDrag,
               this`timeStopped, this`score, this`tokensEarned, this`capsuleDispenserCount,
               this`timeUntilDispense, this`timeUntilDispenseFake, this`finalStretch, this`starIconShown,
               this`totalScoreShown
      ensures Valid()
      ensures !gameStarted && !gameOver && !onDrag && timeStopped
      ensures score == 0 && tokensEarned == 0 && capsuleDispenserCount == CAPSULE_TOTAL
      ensures timeUntilDispense == DISPENSE_INTERVAL && timeUntilDispenseFake == FAKE_SPAWN_TIME
      ensures !finalStretch && !starIconShown && totalScoreShown == 0 && !token.active
      ensures ClearedFrom(old(capsules[..]), old(fakeCapsules[..]))
    {
      ClearPlayfield();
      ResetCounters();
    }

    /// The scalar half of `ResetMainVariables`: flags, score, tokens, the dispenser and its timers.
    method ResetCounters()
      modifies this`gameStarted, this`gameOver, this`onDrag, this`timeStopped, this`score,
               this`tokensEarned, this`capsuleDispenserCount, this`timeUntilDispense,
               this`timeUntilDispenseFake, this`finalStretch, this`starIconShown, this`totalScoreShown
      ensures !gameStarted && !gameOver && !onDrag && timeStopped
      ensures score == 0 && tokensEarned == 0 && capsuleDispenserCount == CAPSULE_TOTAL
      ensures timeUntilDispense == DISPENSE_INTERVAL && timeUntilDispenseFake == FAKE_SPAWN_TIME
      ensures !finalStretch && !starIconShown && totalScoreShown == 0
    {
      gameStarted, gameOver, onDrag, timeStopped, score, tokensEarned, capsuleDispenserCount,
        timeUntilDispense, timeUntilDispenseFake, finalStretch, starIconShown
        := false, false, false, true, 0, 0, CAPSULE_TOTAL, DISPENSE_INTERVAL, FAKE_SPAWN_TIME, false, false;
      totalScoreShown := 0;
    }

    /** The state `ResetMainVariables` leaves from the pools `pool` and
        `fakePool`: a new round's flags, counters and timers, the token hidden
        and every capsule of both pools deactivated. */
    ghost predicate NewRoundFrom(pool: seq<Capsule>, fakePool: seq<Capsule>)
      reads this, capsules, fakeCapsules, token
    {
      && !gameStarted && !gameOver && !onDrag && timeStopped
      && score == 0 && tokensEarned == 0 && capsuleDispenserCount == CAPSULE_TOTAL
      && timeUntilDispense == DISPENSE_INTERVAL && timeUntilDispenseFake == FAKE_SPAWN_TIME
      && !finalStretch && !starIconShown && totalScoreShown == 0 && !token.active
      && ClearedFrom(pool, fakePool)
    }

    /// Every capsule of both pools is the deactivated form of the one in `pool` and `fakePool`.
    ghost predicate ClearedFrom(pool: seq<Capsule>, fakePool: seq<Capsule>)
      reads capsules, fakeCapsules
    {
      && |pool| == capsules.Length && |fakePool| == fakeCapsules.Length
      && (forall k :: 0 <= k < capsules.Length ==> capsules[k] == Disabled(pool[k]))
      && (forall k :: 0 <= k < fakeCapsules.Length ==> fakeCapsules[k] == Disabled(fakePool[k]))
    }

    /// The token and the deactivation loops over both pools, as `ResetMainVariables` runs them.
    method ClearPlayfield()
      requires Valid()
      modifies capsules, fakeCapsules, token
      ensures token.Valid() && !token.active
      ensures ClearedFrom(old(capsules[..]), old(fakeCapsules[..]))
      ensures forall k :: 0 <= k < CAPSULE_TOTAL ==> !capsules[k].active && !capsules[k].faked
      ensures forall k :: 0 <= k < FAKE_CAPSULE_TOTAL ==> !fakeCapsules[k].active
    {
      token.Hide();
      DeactivateAll(capsules);
      DeactivateAll(fakeCapsules);
    }

    /** `ResetLevel`: resume time, reset the round, and start the countdown,
        whose first statements restart the token spawn timer and set three
        seconds. */
    method ResetLevel()
      requires Valid()
      modifies capsules, fakeCapsules, token, this`paused, this`gameStarted, this`gameOver, this`onDrag,
               this`timeStopped, this`score, this`tokensEarned, this`capsuleDispenserCount,
               this`timeUntilDispense, this`timeUntilDispenseFake, this`finalStretch, this`starIconShown,
               this`totalScoreShown,
               this`timeUntilSpawnToken, this`countingDown, this`timeUntilStartGame
      ensures Valid()
      ensures !paused && NewRoundFrom(old(capsules[..]), old(fakeCapsules[..]))
      ensures countingDown && timeUntilStartGame == COUNTDOWN_TIME
      ensures timeUntilSpawnToken == TOKEN_SPAWN_INTERVAL
      ensures forall k :: 0 <= k < CAPSULE_TOTAL ==> !capsules[k].active
    {
      paused := false;
      ResetMainVariables();
      ResetTokenSpawnTimer();
      countingDown := true;
      timeUntilStartGame := COUNTDOWN_TIME;
    }

    /// `GoToStartupMenu`: resume time and reset the round, without a countdown.
    method GoToStartupMenu()
      requires Valid()
      modifies capsules, fakeCapsules, token, this`paused, this`gameStarted, this`gameOver, this`onDrag,
               this`timeStopped, this`score, this`tokensEarned, this`capsuleDispenserCount,
               this`timeUntilDispense, this`timeUntilDispenseFake, this`finalStretch, this`starIconShown,
               this`totalScoreShown
      ensures Valid()
      ensures !paused && NewRoundFrom(old(capsules[..]), old(fakeCapsules[..]))
      ensures countingDown == old(countingDown)
    {
      paused := false;
      ResetMainVariables();
    }

    /** One frame of the countdown coroutine: while time is left it counts
        down; the frame that finds it at zero starts the game on the given
        level and clears the pools (`ResetManager`). The first dispense follows
        a second later as a call to `DispenseCapsule(false)`. */
    method CountdownFrame(dt: real, level: int)
      requires Valid() && countingDown && dt >= 0.0
      modifies capsules, fakeCapsules, this`timeUntilStartGame, this`countingDown, this`levelID,
               this`gameStarted
      ensures Valid()
      ensures old(timeUntilStartGame) > 0.0 ==>
        && countingDown && timeUntilStartGame == CountDown(old(timeUntilStartGame), dt)
        && gameStarted == old(gameStarted) && unchanged(capsules) && unchanged(fakeCapsules)
      ensures old(timeUntilStartGame) <= 0.0 ==>
        && !countingDown && gameStarted && levelID == level
        && (forall k :: 0 <= k < CAPSULE_TOTAL ==> !capsules[k].active)
        && (forall k :: 0 <= k < FAKE_CAPSULE_TOTAL ==> !fakeCapsules[k].active)
    {
      if timeUntilStartGame > 0.0 {
        timeUntilStartGame := CountDown(timeUntilStartGame, dt);
        return;
      }
      countingDown := false;
      levelID := level;
      gameStarted := true;
      DeactivateAll(capsules);
      DeactivateAll(fakeCapsules);
    }

    /// The token's `Update`; a token that runs out restarts the spawn timer.
    method TokenUpdate(dt: real) returns (deactivated: bool)
      requires Valid() && token.active && dt >= 0.0
      modifies token, this`timeUntilSpawnToken
      ensures Valid()
      ensures deactivated <==> old(token.timeRunning) && old(token.timeUntilDisappear) <= 0.0
      ensures deactivated ==> !token.active && timeUntilSpawnToken == TOKEN_SPAWN_INTERVAL
      ensures !deactivated ==> timeUntilSpawnToken == old(timeUntilSpawnToken)
    {
      deactivated := token.Update(FrameTime(dt));
      if deactivated {
        ResetTokenSpawnTimer();
      }
    }

    /// The token's `OnTriggerEnter2D`; a collection earns exactly one token.
    method TokenTouched(tag: Tag) returns (collected: bool)
      requires Valid() && token.active
      modifies token, this`tokensEarned
      ensures Valid()
      ensures collected <==> !old(token.isCollected) && tag == Tokens.CAPSULE_TAG
      ensures tokensEarned == old(tokensEarned) + (if collected then 1 else 0)
    {
      collected := token.OnTriggerEnter2D(tag);
      if collected {
        tokensEarned := tokensEarned + 1;
      }
    }

    /** The count-up loop of `SetupResults`: from zero, one `AddScorePerFrame`
        per frame while the total is below the score. `shown` is what the text
        displays frame by frame. */
    method TallyScore() returns (totalScore: int, shown: seq<int>)
      requires Valid()
      ensures shown == Tally(0, score)
      ensures totalScore == score
      ensures |shown| > 0 ==> shown[|shown| - 1] == score
    {
      totalScore := 0;
      shown := [];
      TallyLandsOnScore(0, score);
      while totalScore < score
        invariant 0 <= totalScore <= score
        invariant shown + Tally(totalScore, score) == Tally(0, score)
        decreases score - totalScore
      {
        totalScore := AddScorePerFrame(totalScore, score);
        shown := shown + [totalScore];
      }
    }

    /** `SaveHighscore`: the level's highscore becomes the larger of itself and
        the score; the star icon shows when the score beat it; "Best" shows the
        resulting highscore. */
    method SaveHighscore(gm: Profile.GameManager)
      requires 0 <= levelID < gm.levelHighscores.Length
      modifies gm.levelHighscores, this`starIconShown, this`bestScoreShown
      ensures score > old(gm.levelHighscores[levelID]) ==>
        gm.levelHighscores[levelID] == score && starIconShown
      ensures score <= old(gm.levelHighscores[levelID]) ==>
        gm.levelHighscores[levelID] == old(gm.levelHighscores[levelID]) && starIconShown == old(starIconShown)
      ensures gm.levelHighscores[levelID] >= score && gm.levelHighscores[levelID] >= old(gm.levelHighscores[levelID])
      ensures bestScoreShown == gm.levelHighscores[levelID]
      ensures forall k :: 0 <= k < gm.levelHighscores.Length && k != levelID ==>
        gm.levelHighscores[k] == old(gm.levelHighscores[k])
    {
      var trueScore := gm.levelHighscores[levelID];
      if score > trueScore {
        starIconShown := true;
        gm.levelHighscores[levelID] := score;
        trueScore := score;
      }
      bestScoreShown := trueScore;
    }

    /** The highscore state `SaveHighscore` leaves from the highscores `before`
        and the star icon `star`: this level's highscore is the larger of its
        old value and the score, the others are kept, the star icon shows once
        the score beat the old highscore, and "Best" shows the new highscore. */
    ghost predicate ResultsSaved(gm: Profile.GameManager, before: seq<int>, star: bool)
      reads this, gm, gm.levelHighscores
    {
      && |before| == gm.levelHighscores.Length && 0 <= levelID < |before|
      && gm.levelHighscores[levelID] == (if score > before[levelID] then score else before[levelID])
      && (forall k :: 0 <= k < |before| && k != levelID ==> gm.levelHighscores[k] == before[k])
      && starIconShown == (star || score > before[levelID])
      && bestScoreShown == gm.levelHighscores[levelID]
    }

    /** `SetupResults`: the count-up ends on the score, the highscore is saved,
        and the tokens earned this round go to the balance along with one more
        level played. */
    method SetupResults(gm: Profile.GameManager)
      requires Valid() && 0 <= levelID < gm.levelHighscores.Length
      modifies gm.levelHighscores, gm`tokens, gm`levelsPlayed, this`totalScoreShown, this`starIconShown,
               this`bestScoreShown, this`tokenCountShown
      ensures Valid()
      ensures totalScoreShown == score && tokenCountShown == tokensEarned
      ensures ResultsSaved(gm, old(gm.levelHighscores[..]), old(starIconShown))
      ensures gm.tokens == old(gm.tokens) + tokensEarned && gm.levelsPlayed == old(gm.levelsPlayed) + 1
    {
      var tokenCount := tokensEarned;
      var totalScore, _ := TallyScore();
      totalScoreShown := totalScore;
      SaveHighscore(gm);
      tokenCountShown := tokenCount;
      gm.tokens := gm.tokens + tokensEarned;
      gm.levelsPlayed := gm.levelsPlayed + 1;
    }

    /// `ShowResults` once the walls have closed: the token disappears and the results are set up.
    method ShowResults(gm: Profile.GameManager)
      requires Valid() && 0 <= levelID < gm.levelHighscores.Length
      modifies token, gm.levelHighscores, gm`tokens, gm`levelsPlayed, this`totalScoreShown,
               this`starIconShown, this`bestScoreShown, this`tokenCountShown
      ensures Valid() && !token.active
      ensures totalScoreShown == score && tokenCountShown == tokensEarned
      ensures ResultsSaved(gm, old(gm.levelHighscores[..]), old(starIconShown))
      ensures gm.tokens == old(gm.tokens) + tokensEarned && gm.levelsPlayed == old(gm.levelsPlayed) + 1
    {
      token.Hide();
      SetupResults(gm);
    }
  }
}
