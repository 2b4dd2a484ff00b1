/// The earlier round controller (Scripts/GameplayManager.cs), kept apart from
/// the current one: a dispenser of ten capsules that releases the rest at once
/// when fewer than five remain, a thirty-second dispense timer, an unclamped
/// score, a slower results count-up, and results that show this round's score
/// as "Best" without any comparison.
module EarlyGameplay {
  import opened Engine
  import Profile

  const CAPSULE_TOTAL: int := 10
  const TOKEN_SPAWN_INTERVAL: real := 20.0
  const COUNTDOWN_TIME: real := 3.0
  const DISPENSE_INTERVAL: real := 30.0
  /// Below this many capsules the dispenser releases the rest at once.
  const DRAIN_BELOW: int := 5

  /// A pooled capsule object: whether it is in play, and whether it was made a star.
  datatype Slot = Slot(active: bool, starred: bool)

  /// The loop condition of the do-while: some capsules left, but fewer than five.
  predicate Draining(count: int)
  {
    0 < count < DRAIN_BELOW
  }

  /** The dispenser count after one `DispenseCapsule`: one capsule leaves, and
      when fewer than five would remain they all leave. */
  function AfterDispense(count: int): (r: int)
    requires count >= 1
    ensures 0 <= r < count && !Draining(r)
    ensures r == count - 1 || r == 0
    ensures count - 1 >= DRAIN_BELOW ==> r == count - 1
  {
    if Draining(count - 1) then 0 else count - 1
  }

  /// The number of dispenses that empty a dispenser holding `count` capsules.
  function DispensesUntilEmpty(count: nat): nat
    decreases count
  {
    if count == 0 then 0 else 1 + DispensesUntilEmpty(AfterDispense(count))
  }

  /** A dispenser with at least five capsules empties in `count - 4`
      dispenses, the last releasing five at once: a full one of ten takes six. */
  lemma {:induction false} DispensesFromFull(count: nat)
    requires count >= DRAIN_BELOW
    ensures DispensesUntilEmpty(count) == count - 4
    decreases count
  {
    if count > DRAIN_BELOW {
      DispensesFromFull(count - 1);
    } else {
      assert AfterDispense(DRAIN_BELOW) == 0;
    }
  }

  /// `SetActive(true)` and, when granted, `StarCapsule`: a star, once given, is never taken back here.
  function Released(slot: Slot, star: bool): (r: Slot)
    ensures r.active && r.starred == (slot.starred || star)
  {
    Slot(true, slot.starred || star)
  }

  /// A star is granted only to a dispense from the timer, while more than four capsules remain.
  predicate GrantsStar(isCompleted: bool, countBefore: int)
  {
    isCompleted && countBefore > 4
  }

  /// The number of active slots of a pool.
  function CountActive(s: seq<Slot>): (r: nat)
    ensures r <= |s|
    ensures r == 0 <==> forall i :: 0 <= i < |s| ==> !s[i].active
    decreases |s|
  {
    if s == [] then 0
    else
      var init := s[..|s| - 1];
      assert forall i :: 0 <= i < |init| ==> init[i] == s[i];
      CountActive(init) + (if s[|s| - 1].active then 1 else 0)
  }

  /// `GetRate`: the count-up step, 1, 2, 4 or 8 by how far the total has climbed.
  function GetRate(currentScore: int): (r: int)
    ensures 1 <= r <= 8
  {
    if currentScore < 100 then 1
    else if currentScore < 500 then 2
    else if currentScore < 2000 then 4
    else 8
  }

  /// The step never shrinks as the total grows.
  lemma GetRateMonotone(a: int, b: int)
    requires a <= b
    ensures GetRate(a) <= GetRate(b)
  {
  }

  /// `AddScorePerFrame`: one step up, never past the score.
  function AddScorePerFrame(currentScore: int, score: int): (r: int)
    ensures r <= score
    ensures currentScore < score ==> currentScore < r
    ensures r == score || r == currentScore + GetRate(currentScore)
  {
    var next := currentScore + GetRate(currentScore);
    if next < score then next else score
  }

  /// The totals the results screen shows, one per frame, while the count-up runs from `current`.
  function Tally(current: int, score: int): seq<int>
    decreases score - current
  {
    if current >= score then []
    else
      var next := AddScorePerFrame(current, score);
      [next] + Tally(next, score)
  }

  /** The count-up is strictly increasing, stays above where it started and at
      most the score, and its last frame shows the score exactly; it shows
      nothing at all when the score is not above the start, which with an
      unclamped score includes every negative one. */
  lemma {:induction false} TallyLandsOnScore(current: int, score: int)
    ensures var t := Tally(current, score);
            && (|t| == 0 <==> current >= score)
            && (forall k :: 0 <= k < |t| ==> current < t[k] <= score)
            && (forall j, k :: 0 <= j < k < |t| ==> t[j] < t[k])
            && (|t| > 0 ==> t[|t| - 1] == score)
    decreases score - current
  {
    if current < score {
      var next := AddScorePerFrame(current, score);
      TallyLandsOnScore(next, score);
    }
  }

  /// `SetActive(false)` on every capsule of the pool, as `DeactivateCapsules` does.
  method DeactivateAll(pool: array<Slot>)
    modifies pool
    ensures forall i :: 0 <= i < pool.Length ==> pool[i] == old(pool[i]).(active := false)
  {
    var i := 0;
    while i < pool.Length
      invariant 0 <= i <= pool.Length
      invariant forall k :: 0 <= k < i ==> pool[k] == old(pool[k]).(active := false)
      invariant forall k :: i <= k < pool.Length ==> pool[k] == old(pool[k])
    {
      pool[i] := pool[i].(active := false);
      i := i + 1;
    }
  }

  class EarlyRound {
    const capsules: array<Slot>

    var score: int
    var tokensEarned: int
    var capsuleDispenserCount: int
    var timeUntilDispense: real
    var fullTime: real
    var gameOver: bool
    var gameStarted: bool
    var countingDown: bool
    var timeUntilStartGame: real
    var timeUntilSpawnToken: real
    var tokenActive: bool
    /// The level is shown, and the results screen with its "Best" line and token count.
    var levelShown: bool
    var resultsShown: bool
    var totalScoreShown: int
    var bestScoreShown: int
    var tokenCountShown: int

    /** The round's invariant: ten pooled capsules, a dispenser count in
        0..10 that is never 1 to 4, and timers that are never negative. */
    ghost predicate Valid()
      reads this
    {
      && capsules.Length == CAPSULE_TOTAL
      && 0 <= capsuleDispenserCount <= CAPSULE_TOTAL
      && !Draining(capsuleDispenserCount)
      && tokensEarned >= 0
      && timeUntilDispense >= 0.0 && timeUntilSpawnToken >= 0.0 && timeUntilStartGame >= 0.0
    }

    /// A round as the scene loads it, before `Start` resets the level.
    constructor ()
      ensures Valid() && fresh(capsules) && !gameStarted && !gameOver
      ensures capsuleDispenserCount == CAPSULE_TOTAL && score == 0
    {
      capsules := new Slot[CAPSULE_TOTAL](_ => Slot(false, false));
      score, tokensEarned := 0, 0;
      capsuleDispenserCount := CAPSULE_TOTAL;
      timeUntilDispense, fullTime := DISPENSE_INTERVAL, DISPENSE_INTERVAL;
      gameOver, gameStarted := false, false;
      countingDown, timeUntilStartGame := false, 0.0;
      timeUntilSpawnToken, tokenActive := TOKEN_SPAWN_INTERVAL, false;
      levelShown, resultsShown := false, false;
      totalScoreShown, bestScoreShown, tokenCountShown := 0, 0, 0;
    }

    /// `GameOver`: the round has ended or has not started.
    predicate GameOver(): (r: bool)
      reads this
      ensures !r <==> gameStarted && !gameOver
    {
      gameOver || !gameStarted
    }

    /// `DispenserIsEmpty`.
    predicate DispenserIsEmpty(): (r: bool)
      reads this
      ensures r <==> capsuleDispenserCount == 0
    {
      capsuleDispenserCount == 0
    }

    /// `GetExistingCapsules`: the index of the next capsule to release.
    function GetExistingCapsules(): (r: int)
      reads this
      requires 0 <= capsuleDispenserCount <= CAPSULE_TOTAL
      ensures 0 <= r <= CAPSULE_TOTAL && r + capsuleDispenserCount == CAPSULE_TOTAL
    {
      CAPSULE_TOTAL - capsuleDispenserCount
    }

    /** The state one `DispenseCapsule` leaves from the pool `pool` and the
        count `count` it started from: the slots at `10 - count` upwards are
        released, one per decrement, each starred when the grant holds for the
        count before its decrement, and the dispense timer restarts at thirty
        seconds, even once the dispenser is empty. */
    ghost predicate DispensedFrom(pool: seq<Slot>, count: int, isCompleted: bool)
      reads this, capsules
    {
      && |pool| == capsules.Length
      && 1 <= count
      && capsuleDispenserCount == AfterDispense(count)
      && (forall i :: 0 <= i < |pool| ==>
            capsules[i] == (if CAPSULE_TOTAL - count <= i < CAPSULE_TOTAL - capsuleDispenserCount
                            then Released(pool[i], GrantsStar(isCompleted, CAPSULE_TOTAL - i))
                            else pool[i]))
      && timeUntilDispense == DISPENSE_INTERVAL && fullTime == DISPENSE_INTERVAL
    }

    /// One pass of the do-while body: release the slot at `10 - count`, then decrement.
    method ReleaseNext(isCompleted: bool)
      requires capsules.Length == CAPSULE_TOTAL && 1 <= capsuleDispenserCount <= CAPSULE_TOTAL
      modifies capsules, this`capsuleDispenserCount
      ensures capsuleDispenserCount == old(capsuleDispenserCount) - 1
      ensures forall i :: 0 <= i < CAPSULE_TOTAL ==>
        capsules[i] == (if i == CAPSULE_TOTAL - old(capsuleDispenserCount)
                        then Released(old(capsules[i]), GrantsStar(isCompleted, old(capsuleDispenserCount)))
                        else old(capsules[i]))
    {
      var index := GetExistingCapsules();
      capsules[index] := Released(capsules[index], GrantsStar(isCompleted, capsuleDispenserCount));
      capsuleDispenserCount := capsuleDispenserCount - 1;
    }

    /** `DispenseCapsule`: nothing while the game is over; otherwise the
        do-while releases capsules until none or at least five remain, and the
        timer restarts. A running game must not dispense from an empty
        dispenser, which the source would index past the pool. */
    method DispenseCapsule(isCompleted: bool)
      requires Valid() && (GameOver() || capsuleDispenserCount >= 1)
      modifies capsules, this`capsuleDispenserCount, this`timeUntilDispense, this`fullTime
      ensures Valid()
      ensures old(GameOver()) ==> unchanged(this) && unchanged(capsules)
      ensures !old(GameOver()) ==> DispensedFrom(old(capsules[..]), old(capsuleDispenserCount), isCompleted)
    {
      if GameOver() {
        return;
      }
      ReleaseNext(isCompleted);
      while Draining(capsuleDispenserCount)
        invariant 0 <= capsuleDispenserCount <= old(capsuleDispenserCount) - 1
        invariant old(capsuleDispenserCount) - 1 < DRAIN_BELOW || capsuleDispenserCount == old(capsuleDispenserCount) - 1
        invariant forall i :: 0 <= i < CAPSULE_TOTAL ==>
          capsules[i] == (if CAPSULE_TOTAL - old(capsuleDispenserCount) <= i < CAPSULE_TOTAL - capsuleDispenserCount
                          then Released(old(capsules[i]), GrantsStar(isCompleted, CAPSULE_TOTAL - i))
                          else old(capsules[i]))
        decreases capsuleDispenserCount
      {
        ReleaseNext(isCompleted);
      }
      assert capsuleDispenserCount == AfterDispense(old(capsuleDispenserCount));
      timeUntilDispense := DISPENSE_INTERVAL;
      fullTime := timeUntilDispense;
    }

    /** `CapsuleDispenserTimer`: idle while the game is over or the dispenser
        is empty; otherwise it counts down, and a frame that finds it at zero
        dispenses from the timer. */
    method CapsuleDispenserTimer(dt: real)
      requires Valid() && dt >= 0.0
      modifies capsules, this`capsuleDispenserCount, this`timeUntilDispense, this`fullTime
      ensures Valid()
      ensures old(GameOver() || DispenserIsEmpty()) ==> unchanged(this) && unchanged(capsules)
      ensures !old(GameOver() || DispenserIsEmpty()) && old(timeUntilDispense) > 0.0 ==>
        timeUntilDispense == CountDown(old(timeUntilDispense), dt) && fullTime == old(fullTime)
        && capsuleDispenserCount == old(capsuleDispenserCount) && unchanged(capsules)
      ensures !old(GameOver() || DispenserIsEmpty()) && old(timeUntilDispense) <= 0.0 ==>
        DispensedFrom(old(capsules[..]), old(capsuleDispenserCount), true)
    {
      if GameOver() || DispenserIsEmpty() {
        return;
      }
      if timeUntilDispense > 0.0 {
        timeUntilDispense := CountDown(timeUntilDispense, dt);
      } else {
        DispenseCapsule(true);
      }
    }

    /// `SpawnToken`: the token appears (its random spawn point is not modelled) and the timer restarts.
    method SpawnToken()
      modifies this`tokenActive, this`timeUntilSpawnToken
      ensures tokenActive && timeUntilSpawnToken == TOKEN_SPAWN_INTERVAL
    {
      tokenActive := true;
      timeUntilSpawnToken := TOKEN_SPAWN_INTERVAL;
    }

    /// `TokenSpawnTimer`: idle while the game is over; otherwise counts down and spawns the token at zero.
    method TokenSpawnTimer(dt: real)
      requires Valid() && dt >= 0.0
      modifies this`tokenActive, this`timeUntilSpawnToken
      ensures Valid()
      ensures old(GameOver()) ==> unchanged(this)
      ensures !old(GameOver()) && old(timeUntilSpawnToken) > 0.0 ==>
        timeUntilSpawnToken == CountDown(old(timeUntilSpawnToken), dt) && tokenActive == old(tokenActive)
      ensures !old(GameOver()) && old(timeUntilSpawnToken) <= 0.0 ==>
        tokenActive && timeUntilSpawnToken == TOKEN_SPAWN_INTERVAL
    {
      if GameOver() {
        return;
      }
      if timeUntilSpawnToken > 0.0 {
        timeUntilSpawnToken := CountDown(timeUntilSpawnToken, dt);
      } else {
        SpawnToken();
      }
    }

    /** `Update`: both timers in turn on the frame time itself, since this
        version has no pause; each acts on the state the frame started from.
        Nothing changes while the game is over. */
    method Update(dt: real)
      requires Valid() && dt >= 0.0
      modifies capsules, this`capsuleDispenserCount, this`timeUntilDispense, this`fullTime,
               this`tokenActive, this`timeUntilSpawnToken
      ensures Valid()
      ensures old(GameOver()) ==> unchanged(this) && unchanged(capsules)
      ensures !old(GameOver() || DispenserIsEmpty()) && old(timeUntilDispense) > 0.0 ==>
        timeUntilDispense == CountDown(old(timeUntilDispense), dt) && fullTime == old(fullTime)
        && capsuleDispenserCount == old(capsuleDispenserCount) && unchanged(capsules)
      ensures !old(GameOver() || DispenserIsEmpty()) && old(timeUntilDispense) <= 0.0 ==>
        DispensedFrom(old(capsules[..]), old(capsuleDispenserCount), true)
      ensures !old(GameOver()) && old(timeUntilSpawnToken) > 0.0 ==>
        timeUntilSpawnToken == CountDown(old(timeUntilSpawnToken), dt) && tokenActive == old(tokenActive)
      ensures !old(GameOver()) && old(timeUntilSpawnToken) <= 0.0 ==>
        tokenActive && timeUntilSpawnToken == TOKEN_SPAWN_INTERVAL
    {
      CapsuleDispenserTimer(dt);
      TokenSpawnTimer(dt);
    }

    /// `SetScore`: adds the points as they are; the score can become negative.
    method SetScore(s: int)
      modifies this`score
      ensures score == old(score) + s
    {
      score := score + s;
    }

    /// `EndGame`: the round is over.
    method EndGame()
      modifies this`gameStarted, this`gameOver
      ensures !gameStarted && gameOver && GameOver()
    {
      gameStarted := false;
      gameOver := true;
    }

    /// `NoCapsulesInGame`: the counting loop over the pool.
    method NoCapsulesInGame() returns (none: bool)
      requires Valid()
      ensures none <==> forall i :: 0 <= i < CAPSULE_TOTAL ==> !capsules[i].active
      ensures none <==> CountActive(capsules[..]) == 0
    {
      var remaining := 0;
      var i := 0;
      while i < CAPSULE_TOTAL
        invariant 0 <= i <= CAPSULE_TOTAL
        invariant remaining == CountActive(capsules[..i])
      {
        assert capsules[..i + 1][..i] == capsules[..i];
        if capsules[i].active {
          remaining := remaining + 1;
        }
        i := i + 1;
      }
      assert capsules[..CAPSULE_TOTAL] == capsules[..];
      none := remaining == 0;
    }

    /** The count-up loop of `SetupResults`: from zero, one `AddScorePerFrame`
        per frame while the total is below the score, so the shown total ends
        on the score when it is positive and stays at 0 otherwise. */
    method TallyScore() returns (totalScore: int, shown: seq<int>)
      ensures shown == Tally(0, score)
      ensures totalScore == (if score > 0 then score else 0)
      ensures score <= 0 <==> shown == []
    {
      totalScore := 0;
      shown := [];
      while totalScore < score
        invariant 0 <= totalScore && (score > 0 ==> totalScore <= score) && (score <= 0 ==> totalScore == 0)
        invariant shown + Tally(totalScore, score) == Tally(0, score)
        decreases score - totalScore
      {
        var next := AddScorePerFrame(totalScore, score);
        assert Tally(totalScore, score) == [next] + Tally(next, score);
        assert (shown + [next]) + Tally(next, score) == shown + ([next] + Tally(next, score));
        totalScore := next;
        shown := shown + [next];
      }
    }

    /** `SetupResults`: the count-up, then "Best" shows this round's score as
        it is, and the round's tokens go to the balance. No highscore is read
        or written. */
    method SetupResults(gm: Profile.GameManager)
      modifies gm`tokens, this`totalScoreShown, this`bestScoreShown, this`tokenCountShown
      ensures totalScoreShown == (if score > 0 then score else 0)
      ensures bestScoreShown == score && tokenCountShown == tokensEarned
      ensures gm.tokens == old(gm.tokens) + tokensEarned
    {
      var tokenCount := tokensEarned;
      var totalScore, _ := TallyScore();
      totalScoreShown := totalScore;
      bestScoreShown := score;
      tokenCountShown := tokenCount;
      gm.tokens := gm.tokens + tokensEarned;
    }

    /// `ShowResults` after the walls have closed: the level is hidden and the results are shown and set up.
    method ShowResults(gm: Profile.GameManager)
      modifies gm`tokens, this`levelShown, this`resultsShown, this`totalScoreShown, this`bestScoreShown,
               this`tokenCountShown
      ensures !levelShown && resultsShown
      ensures totalScoreShown == (if score > 0 then score else 0)
      ensures bestScoreShown == score && tokenCountShown == tokensEarned
      ensures gm.tokens == old(gm.tokens) + tokensEarned
    {
      levelShown := false;
      resultsShown := true;
      SetupResults(gm);
    }

    /** `ResetLevel`: the game is no longer over, the score and tokens are
        zero, the dispenser is full with its timer at thirty seconds, the
        results are hidden, and the countdown starts. The capsules stay as they
        are until the countdown ends. */
    method ResetLevel()
      requires Valid()
      modifies this`gameOver, this`totalScoreShown, this`score, this`tokensEarned,
               this`capsuleDispenserCount, this`timeUntilDispense, this`resultsShown,
               this`countingDown, this`timeUntilStartGame
      ensures Valid()
      ensures !gameOver && score == 0 && tokensEarned == 0 && totalScoreShown == 0
      ensures capsuleDispenserCount == CAPSULE_TOTAL && timeUntilDispense == DISPENSE_INTERVAL
      ensures !resultsShown && countingDown && timeUntilStartGame == COUNTDOWN_TIME
      ensures gameStarted == old(gameStarted)
    {
      gameOver := false;
      totalScoreShown := 0;
      score, tokensEarned := 0, 0;
      capsuleDispenserCount := CAPSULE_TOTAL;
      timeUntilDispense := DISPENSE_INTERVAL;
      resultsShown := false;
      countingDown, timeUntilStartGame := true, COUNTDOWN_TIME;
    }

    /// `GoToStartupMenu`: the same resets as `ResetLevel`, with the level hidden and no countdown.
    method GoToStartupMenu()
      requires Valid()
      modifies this`gameOver, this`totalScoreShown, this`score, this`tokensEarned,
               this`capsuleDispenserCount, this`timeUntilDispense, this`resultsShown, this`levelShown
      ensures Valid()
      ensures !gameOver && score == 0 && tokensEarned == 0 && totalScoreShown == 0
      ensures capsuleDispenserCount == CAPSULE_TOTAL && timeUntilDispense == DISPENSE_INTERVAL
      ensures !resultsShown && !levelShown
    {
      gameOver := false;
      totalScoreShown := 0;
      score, tokensEarned := 0, 0;
      capsuleDispenserCount := CAPSULE_TOTAL;
      timeUntilDispense := DISPENSE_INTERVAL;
      resultsShown := false;
      levelShown := false;
    }

    /// `ResetManager`: every capsule is deactivated (twice, the second time by `DeactivateResultsScreen`) and the level shown.
    method ResetManager()
      modifies capsules, this`levelShown
      ensures levelShown
      ensures forall i :: 0 <= i < capsules.Length ==> capsules[i] == old(capsules[i]).(active := false)
    {
      DeactivateAll(capsules);
      DeactivateAll(capsules);
      levelShown := true;
    }

    /** One frame of the countdown coroutine: while time is left it counts
        down; the frame that finds it at zero starts the game and resets the
        manager. The first dispense follows a second later as a call to
        `DispenseCapsule(false)`. */
    method CountdownFrame(dt: real)
      requires Valid() && countingDown && dt >= 0.0
      modifies capsules, this`timeUntilStartGame, this`countingDown, this`gameStarted, this`levelShown
      ensures Valid()
      ensures old(timeUntilStartGame) > 0.0 ==>
        countingDown && timeUntilStartGame == CountDown(old(timeUntilStartGame), dt)
        && gameStarted == old(gameStarted) && unchanged(capsules)
      ensures old(timeUntilStartGame) <= 0.0 ==>
        !countingDown && gameStarted && levelShown
        && forall i :: 0 <= i < CAPSULE_TOTAL ==> !capsules[i].active
    {
      if timeUntilStartGame > 0.0 {
        timeUntilStartGame := CountDown(timeUntilStartGame, dt);
        return;
      }
      countingDown := false;
      gameStarted := true;
      ResetManager();
    }
  }
}
