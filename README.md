# Capslide in Dafny

Capslide is a mobile arcade game. Capsules drop from a dispenser onto sliders.
The player drags the sliders to bounce the capsules. Each bounce on a slider
adds the capsule's value to its points, and the capsule's points to the
round's score. Fake capsules take points away. When the last capsule leaves
through the dead zone, the results screen counts the score up, records the
level's highscore and adds the tokens collected during the round.

This project models the game's core scripts:

- The current round controller: the dispenser, the timers, the score and the
  results (module `Gameplay`).
- Its capsules (module `Capsules`).
- The sliders (module `Sliders`).
- The collectable token (module `Tokens`) and the bouncer platform (module `Bouncers`).
- The earlier round controller and slider, kept as separate modules
  (`EarlyGameplay`, `EarlySliders`).
- The tweening utility's colour and easing arithmetic (module `Ease`).
- The ad manager's counter and callbacks (module `Ads`).
- The palette shop and the save-file snapshot (modules `Palettes`, `Profile`).

Module `Engine` holds the engine's value types and the few `Mathf` operations
the scripts use. Each of these is modelled exactly as Unity defines it. For
example, `Mathf.Clamp` tests the lower bound first, and `Mathf.Lerp` clamps
its parameter.

Components whose fields the scripts change in place are classes with
`modifies` clauses: the round, the token, the bouncer, the sliders, the
palette buttons and the ad manager. The capsule pools are arrays of capsule
records, updated in place by the round. Pure helpers are functions, and
loops in the source are methods with loop invariants.

Engine time is handled as follows:

- Time is a `real` number of seconds.
- Each frame's `Time.deltaTime` is a non-negative parameter `dt`.
- A paused game (time scale 0) passes frame time 0 to the scripts.
- Coroutines are modelled up to their first wait. Each later step is its own
  method, such as one countdown frame, or the end of a return tween.
- Random values (spawn points, sideways forces) are parameters.

## Model

| member | source | states |
|---|---|---|
| Engine.Clamp | Capslide/Assets/Scripts/Levels/Capsule.cs:44 | The result lies between ordered bounds. A value already in range is returned unchanged. A value below the minimum gives the minimum. A value not below the minimum but above the maximum gives the maximum. |
| Engine.Lerp | Capslide/Assets/Scripts/Levels/Slider.cs:143-175 | Parameter 0 or less gives the start, 1 or more gives the end, and 0.5 gives the midpoint. |
| Engine.CountDown | Capslide/Assets/Scripts/Managers/GameplayManager.cs:147-148 | The timer step subtracts the frame time, stopping at zero. The result is never negative and never above a non-negative start. |
| Engine.ElapsedNonNegative | Capslide/Assets/Scripts/Managers/GameplayManager.cs:147 | A run of non-negative frame times adds up to a non-negative time. |
| Ease.CheckHexFormat | Capslide/Assets/Scripts/Ease.cs:678-700 | The scan accepts a string exactly when, after one optional '#', it has six hex digits in either case. |
| Ease.ToLower | Capslide/Assets/Scripts/Ease.cs:710 | An upper-case ASCII letter becomes the same letter in lower case, and every other character is kept. Only ASCII is lowercased. The result is a lower-case letter exactly when the input is a letter of either case. |
| Ease.LoweredDigit | Capslide/Assets/Scripts/Ease.cs:680-695 | Lowercasing maps a character into the valid-character list exactly when it is a hex digit. |
| Ease.CalculateDecimalValue | Capslide/Assets/Scripts/Ease.cs:708-732 | A hex digit gives its value times 16 for power 1, or times 1 for power 0, in either case. Any other character gives 48, the code of '0'. |
| Ease.ConvertHexToRGB | Capslide/Assets/Scripts/Ease.cs:648-671 | The accumulating loop computes each channel from the high and low digits, divided by 255, with alpha 1. |
| Ease.ChannelOfHexCode | Capslide/Assets/Scripts/Ease.cs:654-668 | On a valid code each channel is 16·high + low, a value from 0 to 255. |
| Ease.DecodedColorInRange | Capslide/Assets/Scripts/Ease.cs:668 | A decoded valid code has every channel in 0..1 and is opaque. |
| Ease.HexCodeRoundTrip | Capslide/Assets/Scripts/Ease.cs:648-700 | Any byte triple written as "#rrggbb" passes the format check and decodes back to the same triple over 255. |
| Ease.ColorChangeFromHex | Capslide/Assets/Scripts/Ease.cs:524-546 | An invalid code leaves the colour untouched. A valid one ends on the decoded colour with the requested alpha. |
| Ease.GetFormattedColor | Capslide/Assets/Scripts/Ease.cs:624-641 | The divisor is 255, 1 or 100 by format. Every component, alpha included, is the original divided by it. |
| Ease.EaseIn | Capslide/Assets/Scripts/Ease.cs:744-751 | The loop yields f to the power powInt, and 1 for power 0. |
| Ease.EaseOutValue | Capslide/Assets/Scripts/Ease.cs:759 | Power 0 gives 0. |
| Ease.PowerOfOne | Capslide/Assets/Scripts/Ease.cs:744-751 | Every power of 1 is 1. |
| Ease.PowerOfZero | Capslide/Assets/Scripts/Ease.cs:744-751 | Every positive power of 0 is 0. |
| Ease.PowerOneCurves | Capslide/Assets/Scripts/Ease.cs:744-766 | With power 1 every easing curve is the identity. |
| Ease.CurveEnds | Capslide/Assets/Scripts/Ease.cs:744-766 | With a positive power every curve maps 0 to 0 and 1 to 1. |
| Ease.CalculateVector | Capslide/Assets/Scripts/Ease.cs:783-811 | Every component whose change flag is false keeps the original vector's value. |
| Ease.CalculateVectorEnds | Capslide/Assets/Scripts/Ease.cs:783-811 | With a positive power a tween starts on the original vector and ends on the final one. |
| Ease.GetAxisVector | Capslide/Assets/Scripts/Ease.cs:817-830 | A component is 1 exactly on the axes the value names, and 0 elsewhere. |
| Ease.TranslateXToStart | Capslide/Assets/Scripts/Ease.cs:161-188 | Only x changes. A zero or negative duration jumps straight to the target. A positive one starts where the object is. |
| Ease.CurveEndsAtZero | Capslide/Assets/Scripts/Ease.cs:783-811 | A linear curve, or any curve with a positive power, is 0 at time ratio 0. |
| Capsules.SetCapsuleValue | Capslide/Assets/Scripts/Levels/Capsule.cs:147-155 | A star adds 3. Otherwise a fake takes 5. Otherwise 1 is added. The star test comes first. |
| Capsules.InDeadZone | Capslide/Assets/Scripts/Levels/Capsule.cs:202 | A vertical speed is in the dead zone exactly when its size is below 144. |
| Capsules.ClampVelocity | Capslide/Assets/Scripts/Levels/Capsule.cs:44 | Both components end within ±720. A component already in range is kept. A component above 720 becomes 720, and one below -720 becomes -720. |
| Capsules.ClampVelocityIdempotent | Capslide/Assets/Scripts/Levels/Capsule.cs:51-57 | The second clamp in a collision changes nothing. |
| Capsules.ScoringBounceRaw | Capslide/Assets/Scripts/Levels/Capsule.cs:59-75 | A collision scores exactly when it is a Slider collision whose vertical speed is at least 144 in size. |
| Capsules.Collided | Capslide/Assets/Scripts/Levels/Capsule.cs:48-86 | The velocity is clamped. Gravity rises by 1 on Slider or Platform. Points gain the capsule's value on a scoring bounce. Nothing else changes. |
| Capsules.Enabled | Capslide/Assets/Scripts/Levels/Capsule.cs:31-39 | Activation of an inactive capsule zeroes its points. An active capsule is left as it is. Star and fake flags are kept. |
| Capsules.Disabled | Capslide/Assets/Scripts/Levels/Capsule.cs:204-207 | Deactivation cancels the pending launch reset and the exit coroutine. Points, star and gravity are kept. |
| Capsules.Starred | Capslide/Assets/Scripts/Levels/Capsule.cs:125-129 | The capsule becomes a star capsule. Every other field, the fake flag included, is kept. |
| Capsules.Faked | Capslide/Assets/Scripts/Levels/Capsule.cs:134-138 | The capsule becomes a fake capsule. Every other field, the star flag included, is kept. |
| Capsules.Recycled | Capslide/Assets/Scripts/Levels/Capsule.cs:104-108 | On a dead-zone exit, points become 0, gravity 50, the star is removed and the capsule is deactivated. The fake flag is kept. |
| Capsules.Launched | Capslide/Assets/Scripts/Levels/Capsule.cs:157-164 | A launch marks the capsule launched and stops it. It applies an upward impulse of 720 and schedules the reset for 0.5 s. |
| Capsules.Updated | Capslide/Assets/Scripts/Levels/Capsule.cs:42-46 | Each frame clamps the velocity. A scheduled reset whose delay has passed clears isLaunched. |
| Capsules.LaunchWearsOff | Capslide/Assets/Scripts/Levels/Capsule.cs:157-166 | Once frames adding up to 0.5 s have passed after a launch, the capsule is no longer launched. |
| Capsules.FramesClearLaunch | Capslide/Assets/Scripts/Levels/Capsule.cs:163-166 | A pending reset fires once its delay has elapsed. |
| Capsules.FramesKeepLanded | Capslide/Assets/Scripts/Levels/Capsule.cs:42-46 | A capsule that is not launched stays so while no launch happens. |
| Tokens.Token.constructor | Capslide/Assets/Scripts/Token.cs:10-19 | A placed token starts inactive. |
| Tokens.Token.OnEnable | Capslide/Assets/Scripts/Token.cs:21-32 | The timer is set to 10, running, not blinking, not collected and opaque. |
| Tokens.Token.Show | Capslide/Assets/Scripts/Managers/GameplayManager.cs:259-267 | Activation runs OnEnable only on an inactive token. |
| Tokens.Token.Hide | Capslide/Assets/Scripts/Token.cs:109-113 | Deactivation stops the token's coroutines and keeps its fields. |
| Tokens.Token.Update | Capslide/Assets/Scripts/Token.cs:35-53 | A running timer counts down to 0. An uncollected token starts blinking below 5 s. At 0 the token deactivates and asks for the spawn-timer reset. |
| Tokens.Token.Blink | Capslide/Assets/Scripts/Token.cs:78-82 | Blinking has started. |
| Tokens.Token.OnTriggerEnter2D | Capslide/Assets/Scripts/Token.cs:55-73 | Collection happens exactly on the first contact with a Capsule. It sets 1.5 s, stops blinking and starts rising at full opacity. Other contacts change nothing. |
| Bouncers.Bouncer.constructor | Capslide/Assets/Scripts/Bouncer.cs:8-12 | The collider is on, with a full timer. |
| Bouncers.Bouncer.OnEnable | Capslide/Assets/Scripts/Bouncer.cs:15-20 | The bouncer is opaque, with the collider on and the timer at 10. |
| Bouncers.Bouncer.Deactivate | Capslide/Assets/Scripts/Bouncer.cs:27-32 | The bouncer is faded, with the collider off and the timer at 10. |
| Bouncers.Bouncer.Activate | Capslide/Assets/Scripts/Bouncer.cs:34-38 | The bouncer is opaque with the collider on. The timer is untouched. |
| Bouncers.Bouncer.ActivationTimer | Capslide/Assets/Scripts/Bouncer.cs:40-49 | A positive timer counts down. The collider comes back on only when the timer is at 0. Opacity always matches the collider. |
| Bouncers.Bouncer.OnCollisionEnter2D | Capslide/Assets/Scripts/Bouncer.cs:51-57 | Only a Capsule switches the bouncer off. |
| Bouncers.TimerRunsOut | Capslide/Assets/Scripts/Bouncer.cs:40-49 | The timer never goes negative. It reaches 0 once the frames add up to its value. |
| Palettes.PaletteButton.constructor | Capslide/Assets/Scripts/PaletteButton.cs:11-15 | A button holds its palette, squares and lock state, unequipped with the checkmark hidden. |
| Palettes.PaletteManager.constructor | Capslide/Assets/Scripts/Managers/PaletteManager.cs:10-11 | The manager holds the main palette and the buttons it was given. |
| Palettes.PaletteButton.Equip | Capslide/Assets/Scripts/PaletteButton.cs:26-31 | The button is equipped, its palette becomes the main one, and the checkmark shows. |
| Palettes.PaletteButton.Unequip | Capslide/Assets/Scripts/PaletteButton.cs:33-37 | The button is unequipped and the checkmark hidden. The main palette is untouched. |
| Palettes.PaletteButton.OnEnable | Capslide/Assets/Scripts/PaletteButton.cs:17-24 | Exactly the first five colours are copied into the squares. The button is equipped exactly when its palette is the main one. |
| Palettes.PaletteManager.Equip | Capslide/Assets/Scripts/Managers/PaletteManager.cs:27-37 | An equipped or locked button changes nothing. Otherwise it is the only equipped button, its palette is the main one, and the getters read from it. At most one equipped button is preserved. |
| Palettes.PaletteManager.GetColor | Capslide/Assets/Scripts/Managers/PaletteManager.cs:40 | The colour at an index is that entry of the main palette's colour list. |
| Palettes.PaletteManager.GetScoreColor | Capslide/Assets/Scripts/Managers/PaletteManager.cs:41 | The score colour is the main palette's. |
| Palettes.PaletteManager.GetCapsuleTimerColor | Capslide/Assets/Scripts/Managers/PaletteManager.cs:42 | The capsule timer colour is the main palette's. |
| Palettes.PaletteManager.GetBackButtonColor | Capslide/Assets/Scripts/Managers/PaletteManager.cs:43 | The back button colour is the main palette's. |
| Palettes.PaletteManager.GetRetryButtonColor | Capslide/Assets/Scripts/Managers/PaletteManager.cs:44 | The retry button colour is the main palette's. |
| Palettes.PaletteManager.GetRewardedAdButtonColor | Capslide/Assets/Scripts/Managers/PaletteManager.cs:45 | The rewarded-ad button colour is the main palette's. |
| Palettes.PaletteManager.GetTokenColor | Capslide/Assets/Scripts/Managers/PaletteManager.cs:46 | The token colour is the main palette's. |
| Profile.GameManager.constructor | Capslide/Assets/Scripts/Managers/GameManager.cs:24-35 | A new manager has six highscores, no tokens and zero play counters. |
| Profile.CapslideData.constructor | Capslide/Assets/Scripts/CapslideData.cs:27-46 | The snapshot holds fresh arrays of 6 highscores and 56 unlock flags equal to the manager's. Scalars and toggles are copied, power saving is not stored, and the ad counter stays 0. |
| Gameplay.AfterDispense | Capslide/Assets/Scripts/Managers/GameplayManager.cs:231-241 | One dispense lowers the count by one, or to 0 when fewer than 3 would remain. The count is never 1 or 2 afterwards. |
| Gameplay.LastThreeCapsules | Capslide/Assets/Scripts/Managers/GameplayManager.cs:572 | The do-while goes on exactly when one or two capsules are left. |
| Gameplay.DispensesFromFull | Capslide/Assets/Scripts/Managers/GameplayManager.cs:231-241 | A dispenser of 3 or more empties in count - 2 dispenses. |
| Gameplay.Released | Capslide/Assets/Scripts/Managers/GameplayManager.cs:233-237 | A released capsule is active and starred exactly when this dispense grants a star. Its fake flag and gravity are kept. |
| Gameplay.ReleasedAsWritten | Capslide/Assets/Scripts/Managers/GameplayManager.cs:233-237 | As written, a released capsule is starred when granted, or when it was already starred. |
| Gameplay.StarOutlivesReset | Capslide/Assets/Scripts/Levels/Capsule.cs:125-129 | A star capsule deactivated by a reset comes back starred as written without a grant. The corrected release does not star it. |
| Gameplay.CountActive | Capslide/Assets/Scripts/Managers/GameplayManager.cs:504-515 | The count is at most the pool size, and 0 exactly when no capsule is active. |
| Gameplay.CountActiveInactiveTail | Capslide/Assets/Scripts/Managers/GameplayManager.cs:504-515 | Inactive capsules after index k add nothing to the count. |
| Gameplay.FirstInactive | Capslide/Assets/Scripts/Managers/GameplayManager.cs:208-216 | Every capsule before the result is active, and the one at the result, if any, is not. |
| Gameplay.CountInGame | Capslide/Assets/Scripts/Managers/GameplayManager.cs:504-515 | The counting loop returns the number of active capsules. |
| Gameplay.DeactivateAll | Capslide/Assets/Scripts/Managers/GameplayManager.cs:580-596 | Every capsule of the pool is deactivated, and nothing else changes. |
| Gameplay.AddScore | Capslide/Assets/Scripts/Managers/GameplayManager.cs:374-379 | The new score is max(0, score + s), so it is never negative. |
| Gameplay.ScoringStep | Capslide/Assets/Scripts/Levels/Capsule.cs:59-78 | One scoring bounce adds the capsule's value d (3 for a star, else 1) to its points, then its points to the score. |
| Gameplay.RunSum | Capslide/Assets/Scripts/Levels/Capsule.cs:75-78 | The score sum over k bounces closes to 2s + 2kp + d·k(k+1). |
| Gameplay.ScoringRun | Capslide/Assets/Scripts/Levels/Capsule.cs:48-86 | After k scoring slider bounces, a normal or star capsule has p + k·d points and k more gravity. The score grows by kp + d·k(k+1)/2. |
| Gameplay.FakeRun | Capslide/Assets/Scripts/Levels/Capsule.cs:147-155 | The points of a fake capsule only fall over scoring bounces. The score stays at least 0. |
| Gameplay.NonScoringBounce | Capslide/Assets/Scripts/Levels/Capsule.cs:54-73 | A collision that is not a slider bounce outside the dead band leaves points and score unchanged. |
| Gameplay.GetRate | Capslide/Assets/Scripts/Managers/GameplayManager.cs:356-368 | The count-up step lies between 2 and 32. |
| Gameplay.GetRateMonotone | Capslide/Assets/Scripts/Managers/GameplayManager.cs:356-368 | The step never shrinks as the total grows. |
| Gameplay.AddScorePerFrame | Capslide/Assets/Scripts/Managers/GameplayManager.cs:350-355 | One step up, capped at the score. |
| Gameplay.TallyLandsOnScore | Capslide/Assets/Scripts/Managers/GameplayManager.cs:350-368 | The count-up is strictly increasing and never passes the score. It ends exactly on the score, and is empty exactly when the start is not below the score. |
| Gameplay.ExitDecision | Capslide/Assets/Scripts/Levels/Capsule.cs:110-119 | The round ends exactly when no capsule is in play and both the dispenser and the fake pool are empty. It refills exactly when no capsule is in play and the dispenser is not empty. |
| Gameplay.Round.constructor | Capslide/Assets/Scripts/Managers/GameplayManager.cs:21-72 | A round starts with full dispenser, zero score and the game not started. |
| Gameplay.Round.FrameTime | Capslide/Assets/Scripts/Managers/GameplayManager.cs:401-418 | A paused game passes 0 to the scripts, and a running one passes dt. |
| Gameplay.Round.GameOver | Capslide/Assets/Scripts/Managers/GameplayManager.cs:578 | The game is running exactly when it has started and has not ended. |
| Gameplay.Round.DispenserIsEmpty | Capslide/Assets/Scripts/Managers/GameplayManager.cs:548 | The dispenser is empty exactly when its count is 0. |
| Gameplay.Round.ReleaseNext | Capslide/Assets/Scripts/Managers/GameplayManager.cs:231-239 | One pass of the do-while releases the capsule at 15 - count and decrements the count. |
| Gameplay.Round.DispenseCapsule | Capslide/Assets/Scripts/Managers/GameplayManager.cs:226-254 | While the game is over nothing changes. Otherwise the released slots are exactly 15 - count up to 15 - AfterDispense(count), each starred per GrantsStar. Time is no longer stopped. The timer and fullTime are 0 when empty, else 20. The final stretch starts when the count lands on 5 and is never switched off. |
| Gameplay.Round.CapsuleDispenserTimer | Capslide/Assets/Scripts/Managers/GameplayManager.cs:138-152 | Nothing changes while the game is over, the dispenser is empty or time is stopped. Otherwise the timer counts down with everything else kept, and a frame that finds it at 0 dispenses with a star grant. |
| Gameplay.Round.ResetTokenSpawnTimer | Capslide/Assets/Scripts/Managers/GameplayManager.cs:272 | The spawn timer is set to 20. |
| Gameplay.Round.SpawnToken | Capslide/Assets/Scripts/Managers/GameplayManager.cs:259-267 | The token is active, and only an inactive one is re-enabled. The timer is set to 20. |
| Gameplay.Round.TokenSpawnTimer | Capslide/Assets/Scripts/Managers/GameplayManager.cs:157-169 | Nothing changes while the game is over. Otherwise the timer counts down, and at 0 the token spawns. |
| Gameplay.Round.SetFakeSpawnTimer | Capslide/Assets/Scripts/Managers/GameplayManager.cs:536-542 | The fake timer is 4 exactly in the final stretch, and 8 exactly outside it. |
| Gameplay.Round.DispenseFakeCapsule | Capslide/Assets/Scripts/Managers/GameplayManager.cs:204-221 | Nothing changes while the game is over. Otherwise the first inactive fake slot, if any, is enabled and marked fake, and the fake timer is reset. |
| Gameplay.Round.GetExistingCapsules | Capslide/Assets/Scripts/Managers/GameplayManager.cs:489 | The next index lies in 0..15 and bounds the number of capsules in play. |
| Gameplay.Round.GetCapsulesInGame | Capslide/Assets/Scripts/Managers/GameplayManager.cs:504-515 | The result is the number of active main capsules, at most the number released. |
| Gameplay.Round.NoCapsulesInGame | Capslide/Assets/Scripts/Managers/GameplayManager.cs:495-499 | True exactly when no main capsule is active. |
| Gameplay.Round.GetFakeCapsulesInGame | Capslide/Assets/Scripts/Managers/GameplayManager.cs:520-531 | The result is the number of active fake capsules. |
| Gameplay.Round.NoFakeCapsulesInGame | Capslide/Assets/Scripts/Managers/GameplayManager.cs:555-566 | True exactly when no fake capsule is active. |
| Gameplay.Round.InPlayAtMostReleased | Capslide/Assets/Scripts/Managers/GameplayManager.cs:504-515 | No more capsules are in play than have been released. |
| Gameplay.Round.FakeCapsuleDispenserTimer | Capslide/Assets/Scripts/Managers/GameplayManager.cs:188-200 | Nothing changes while the game is over, no slider is held, or the field and dispenser are both empty. Otherwise the fake timer counts down, and at 0 a fake is dispensed. |
| Gameplay.Round.Update | Capslide/Assets/Scripts/Managers/GameplayManager.cs:95-100 | Nothing changes while the game is over. In a running game the dispense timer counts down on the frame time (zero while paused), with the clock, fullTime and the final stretch kept, or dispenses with a star grant. The token timer counts down or shows the token. The fake timer counts down or dispenses a fake while a slider is held and a capsule is left after this frame's dispense. |
| Gameplay.Round.SetScore | Capslide/Assets/Scripts/Managers/GameplayManager.cs:374-379 | The score becomes AddScore(score, s). |
| Gameplay.Round.EndGame | Capslide/Assets/Scripts/Managers/GameplayManager.cs:277-282 | The game is over and not started. |
| Gameplay.Round.CapsuleCollision | Capslide/Assets/Scripts/Levels/Capsule.cs:48-86 | The capsule and the score change exactly as one Bounce, and every other capsule is unchanged. |
| Gameplay.Round.CapsuleUpdate | Capslide/Assets/Scripts/Levels/Capsule.cs:42-46 | The capsule takes one frame on the frame time, and every other capsule is unchanged. |
| Gameplay.Round.LaunchCapsule | Capslide/Assets/Scripts/Levels/Capsule.cs:157-164 | The capsule is launched, and every other capsule is unchanged. |
| Gameplay.Round.EnterDeadZone | Capslide/Assets/Scripts/Levels/Capsule.cs:96-102 | Time stops exactly when the last main capsule in play enters. With screen shake on, the capsule waits for the shake. |
| Gameplay.Round.RecycleCapsule | Capslide/Assets/Scripts/Levels/Capsule.cs:104-108 | The exiting capsule is recycled, and every other capsule is unchanged. |
| Gameplay.Round.AfterCapsuleExit | Capslide/Assets/Scripts/Levels/Capsule.cs:110-119 | By ExitDecision, the round ends, one dispense follows, or nothing happens. |
| Gameplay.Round.TogglePause | Capslide/Assets/Scripts/Managers/GameplayManager.cs:384-418 | Pausing flips exactly when the game has started and the last capsule is not on its way out. On its way out means at most one capsule and one fake in play, an empty dispenser and time stopped. |
| Gameplay.Round.ResetMainVariables | Capslide/Assets/Scripts/Managers/GameplayManager.cs:420-448 | Score, tokens, flags and timers are back at their initial values, the count is 15, the total shows 0, and every capsule of both pools and the token are deactivated. |
| Gameplay.Round.ClearPlayfield | Capslide/Assets/Scripts/Managers/GameplayManager.cs:580-596 | Every capsule of both pools and the token are deactivated. |
| Gameplay.Round.ResetCounters | Capslide/Assets/Scripts/Managers/GameplayManager.cs:420-448 | The scalar resets of ResetMainVariables: not started, not over, nothing held, time stopped, score and tokens 0, count 15, timers 20 and 8, no final stretch, star icon hidden, total text 0. |
| Gameplay.Round.ResetLevel | Capslide/Assets/Scripts/Managers/GameplayManager.cs:453-460 | The game is unpaused and left in the state ResetMainVariables gives, with both pools cleared and the token hidden. The token spawn timer is 20 and the three-second countdown starts. Only those fields change. |
| Gameplay.Round.GoToStartupMenu | Capslide/Assets/Scripts/Managers/GameplayManager.cs:465-471 | The game is unpaused and left in the state ResetMainVariables gives, with both pools cleared and the token hidden. The countdown state, the level and the results are left as they were. |
| Gameplay.Round.CountdownFrame | Capslide/Assets/Scripts/Managers/GameplayManager.cs:105-133 | While time is left the countdown steps down. At 0 the game starts with an empty playfield. |
| Gameplay.Round.TokenUpdate | Capslide/Assets/Scripts/Token.cs:35-53 | A token that runs out deactivates and resets the spawn timer to 20. |
| Gameplay.Round.TokenTouched | Capslide/Assets/Scripts/Token.cs:55-67 | tokensEarned rises by exactly 1 on a collection and is otherwise unchanged. |
| Gameplay.Round.TallyScore | Capslide/Assets/Scripts/Managers/GameplayManager.cs:312-321 | The count-up loop shows Tally(0, score) frame by frame and ends on the score. |
| Gameplay.Round.SaveHighscore | Capslide/Assets/Scripts/Managers/GameplayManager.cs:336-348 | A higher score replaces the level's highscore, and no other highscore changes. "Best" shows the stored highscore. |
| Gameplay.Round.SetupResults | Capslide/Assets/Scripts/Managers/GameplayManager.cs:310-334 | The total shows the score and the token count the tokens earned. This level's highscore becomes the larger of itself and the score, the other levels' are kept, the star icon shows on a new highscore, and "Best" shows the highscore. Tokens are added to the balance and one more level is counted as played. |
| Gameplay.Round.ShowResults | Capslide/Assets/Scripts/Managers/GameplayManager.cs:284-308 | The token is hidden and the results are set up: the total, the token count, the saved highscore with its star and "Best", the token balance and the levels played. |
| Sliders.SetupEndpoints | Capslide/Assets/Scripts/Levels/Slider.cs:284-306 | A vertical bar runs bottom to top, and a horizontal one left to right, centred with the bar's length. Otherwise the ends are kept. The ends are ordered. |
| Sliders.AdjustSliderRange | Capslide/Assets/Scripts/Levels/Slider.cs:99-111 | The frozen coordinate is the knob's. On an ordered bar, every free coordinate lies in range, and a touch in range is followed exactly. |
| Sliders.AdjustSliderRangeFixesKnob | Capslide/Assets/Scripts/Levels/Slider.cs:99-111 | A touch exactly at a knob on the bar leaves it in place. |
| Sliders.AdjustSliderRangeStaysWithin | Capslide/Assets/Scripts/Levels/Slider.cs:99-111 | A knob on the bar stays on the bar. |
| Sliders.GetPlacement | Capslide/Assets/Scripts/Levels/Slider.cs:143-175 | Left and Bottom give the start, Right and Top the end, and Center the midpoint. The point is on the bar. |
| Sliders.Slider.constructor | Capslide/Assets/Scripts/Levels/Slider.cs:53-62 | A new slider sits at its placement, draggable, with a full drag timer. |
| Sliders.Slider.OnEnable | Capslide/Assets/Scripts/Levels/Slider.cs:53-62 | The ends are set up, dragging is allowed, and the knob and origin are at the placement point. |
| Sliders.Slider.AllowDrag | Capslide/Assets/Scripts/Levels/Slider.cs:89-95 | The knob is at its origin, draggable, with 3 s on the timer. |
| Sliders.Slider.ReleaseDrag | Capslide/Assets/Scripts/Levels/Slider.cs:252-267 | No slider is held and this one is not draggable, with its timer at 0. The return takes 1 s when forced and 0.2 s otherwise. |
| Sliders.Slider.ReturnArrived | Capslide/Assets/Scripts/Ease.cs:126 | The tween ends exactly at the origin. |
| Sliders.Slider.AtOrigin | Capslide/Assets/Scripts/Levels/Slider.cs:273 | The knob is at its origin, not held here and not draggable, exactly as the three-part test. |
| Sliders.Slider.DragTimer | Capslide/Assets/Scripts/Levels/Slider.cs:193-208 | With nothing held the timer refills. A held draggable slider counts down and is released at 0, starting the one-second return. Outside the release the return state is kept. |
| Sliders.Slider.OnMouseDown | Capslide/Assets/Scripts/Levels/Slider.cs:210-225 | Nothing happens before the start or while paused. Otherwise a slider is held, and a draggable one jumps to the touch. |
| Sliders.Slider.OnMouseDrag | Capslide/Assets/Scripts/Levels/Slider.cs:226-238 | The knob follows the touch only while held, draggable and unpaused. Otherwise it stays. |
| Sliders.Slider.OnMouseUp | Capslide/Assets/Scripts/Levels/Slider.cs:240-246 | A locally held slider is released by hand. Otherwise nothing happens. |
| Sliders.Slider.Update | Capslide/Assets/Scripts/Levels/Slider.cs:75-87 | Nothing happens while the game is over. Dragging is re-enabled exactly for a released knob at its origin. Then the drag timer runs on the frame time: it refills when nothing is held, stays when another slider is held, counts down while this one is held, and at 0 releases it and starts the one-second return. Outside the release the return time is kept. |
| EarlyGameplay.AfterDispense | Capslide/Assets/Scripts/GameplayManager.cs:157-167 | One dispense lowers the count by one, or to 0 when fewer than 5 would remain. The count is never 1 to 4 afterwards. |
| EarlyGameplay.DispensesFromFull | Capslide/Assets/Scripts/GameplayManager.cs:157-167 | A dispenser of 5 or more empties in count - 4 dispenses, so a full one takes 6. |
| EarlyGameplay.Released | Capslide/Assets/Scripts/GameplayManager.cs:159-163 | A released slot is active, and starred if granted or already starred. |
| EarlyGameplay.CountActive | Capslide/Assets/Scripts/GameplayManager.cs:334-345 | The count is at most the pool size, and 0 exactly when no capsule is active. |
| EarlyGameplay.GetRate | Capslide/Assets/Scripts/GameplayManager.cs:247-257 | The count-up step is 1, 2, 4 or 8. |
| EarlyGameplay.GetRateMonotone | Capslide/Assets/Scripts/GameplayManager.cs:247-257 | The step never shrinks as the total grows. |
| EarlyGameplay.AddScorePerFrame | Capslide/Assets/Scripts/GameplayManager.cs:241-246 | One step up, capped at the score. |
| EarlyGameplay.TallyLandsOnScore | Capslide/Assets/Scripts/GameplayManager.cs:241-257 | The count-up is strictly increasing and ends on the score. It shows nothing when the score is not positive. |
| EarlyGameplay.DeactivateAll | Capslide/Assets/Scripts/GameplayManager.cs:359-366 | Every slot is deactivated, and nothing else changes. |
| EarlyGameplay.EarlyRound.constructor | Capslide/Assets/Scripts/GameplayManager.cs:21-58 | A round starts with 10 capsules, zero score and the game not started. |
| EarlyGameplay.EarlyRound.GetExistingCapsules | Capslide/Assets/Scripts/GameplayManager.cs:328 | The next index and the count add up to 10. |
| EarlyGameplay.EarlyRound.GameOver | Capslide/Assets/Scripts/GameplayManager.cs:357 | The game is running exactly when it has started and has not ended. |
| EarlyGameplay.EarlyRound.DispenserIsEmpty | Capslide/Assets/Scripts/GameplayManager.cs:351 | The dispenser is empty exactly when its count is 0. |
| EarlyGameplay.EarlyRound.ReleaseNext | Capslide/Assets/Scripts/GameplayManager.cs:157-165 | One pass of the do-while releases the slot at 10 - count and decrements the count. |
| EarlyGameplay.EarlyRound.DispenseCapsule | Capslide/Assets/Scripts/GameplayManager.cs:152-172 | While the game is over nothing changes. Otherwise the released slots are 10 - count up to 10 - AfterDispense(count), starred when the count before was above 4 on a timer dispense. The timer and fullTime are 30. |
| EarlyGameplay.EarlyRound.CapsuleDispenserTimer | Capslide/Assets/Scripts/GameplayManager.cs:116-130 | Nothing changes while the game is over or the dispenser is empty. Otherwise the timer counts down with fullTime and the pool kept, and at 0 it dispenses with a star grant. |
| EarlyGameplay.EarlyRound.SpawnToken | Capslide/Assets/Scripts/GameplayManager.cs:177-183 | The token is active and the timer is 20. |
| EarlyGameplay.EarlyRound.TokenSpawnTimer | Capslide/Assets/Scripts/GameplayManager.cs:135-147 | Nothing changes while the game is over. Otherwise the timer counts down, and at 0 the token spawns. |
| EarlyGameplay.EarlyRound.Update | Capslide/Assets/Scripts/GameplayManager.cs:82-86 | Nothing changes while the game is over. In a running game with capsules left to dispense, the dispense timer counts down on the frame time, with fullTime kept, or dispenses with a star grant. The token timer counts down or shows the token. |
| EarlyGameplay.EarlyRound.SetScore | Capslide/Assets/Scripts/GameplayManager.cs:263-267 | The score gains s with no clamp, so it can go negative. |
| EarlyGameplay.EarlyRound.EndGame | Capslide/Assets/Scripts/GameplayManager.cs:193-198 | The game is over and not started. |
| EarlyGameplay.EarlyRound.NoCapsulesInGame | Capslide/Assets/Scripts/GameplayManager.cs:334-345 | True exactly when no capsule is active. |
| EarlyGameplay.EarlyRound.TallyScore | Capslide/Assets/Scripts/GameplayManager.cs:220-228 | The loop shows Tally(0, score). It ends on the score when the score is positive, and at 0 with nothing shown otherwise. |
| EarlyGameplay.EarlyRound.SetupResults | Capslide/Assets/Scripts/GameplayManager.cs:217-239 | "Best" shows this round's score with no comparison. The shown total is max(0, score). The tokens earned are added to the balance. |
| EarlyGameplay.EarlyRound.ShowResults | Capslide/Assets/Scripts/GameplayManager.cs:200-216 | The level is hidden and the results are shown and set up: the total shows max(0, score), "Best" the score and the token count the tokens earned, and the tokens go to the balance. |
| EarlyGameplay.EarlyRound.ResetLevel | Capslide/Assets/Scripts/GameplayManager.cs:272-287 | Score and tokens are 0, the count is 10, the timer is 30, and the game is not over. The results are hidden and the countdown starts. gameStarted is untouched. |
| EarlyGameplay.EarlyRound.GoToStartupMenu | Capslide/Assets/Scripts/GameplayManager.cs:292-310 | The same resets as ResetLevel, with the level hidden and no countdown started. |
| EarlyGameplay.EarlyRound.ResetManager | Capslide/Assets/Scripts/GameplayManager.cs:315-326 | Every capsule is deactivated and the level is shown. |
| EarlyGameplay.EarlyRound.CountdownFrame | Capslide/Assets/Scripts/GameplayManager.cs:91-111 | While time is left the countdown steps down. At 0 the game starts with every capsule inactive. |
| EarlySliders.AwakeEndpoints | Capslide/Assets/Scripts/Slider.cs:43-58 | A vertical bar runs from its top down to its bottom, and a horizontal one left to right, spanning the bar's scale. With neither flag both ends stay at the origin. |
| EarlySliders.VerticalKnobPinned | Capslide/Assets/Scripts/Slider.cs:45-100 | With those ends, the start-to-end clamp puts a vertical knob at the top or the bottom, wherever the touch is. |
| EarlySliders.CentreTouchJumpsToTop | Capslide/Assets/Scripts/Slider.cs:45-100 | On a bar of height 20 at the origin, a centre touch puts the knob at the top as written, and at the touch when corrected. |
| EarlySliders.AdjustSliderRange | Capslide/Assets/Scripts/Slider.cs:97-109 | Corrected clamp. The frozen coordinate is the knob's. Every free coordinate lies between the ends in either order, and a touch between them is followed exactly. |
| EarlySliders.VerticalKnobFollows | Capslide/Assets/Scripts/Slider.cs:43-109 | With the corrected clamp a vertical knob follows every touch on its bar. |
| EarlySliders.GetPlacement | Capslide/Assets/Scripts/Slider.cs:128-149 | Left, Top and Bottom give the start, Right the end, and Center the midpoint. The point is on the bar. |
| EarlySliders.AxisDistance | Capslide/Assets/Scripts/Slider.cs:185 | The distance is 0 exactly at the origin. It is the straight-line distance when the points share a coordinate. |
| EarlySliders.FillWidth | Capslide/Assets/Scripts/Slider.cs:113-115 | A horizontal slider's width is the distance cut to a whole number. Any other slider's width is 0. |
| EarlySliders.ReturnDuration | Capslide/Assets/Scripts/Slider.cs:185-187 | The duration is the distance over 200, and 0 exactly at the origin. |
| EarlySliders.EarlySlider.constructor | Capslide/Assets/Scripts/Slider.cs:39-63 | The fill bars are empty, and only the placement's own bar is shown. The knob and origin are at the placement point. |
| EarlySliders.EarlySlider.Update | Capslide/Assets/Scripts/Slider.cs:71-95 | A knob at its origin becomes draggable. A second finger's touch moves the knob on Began or Moved, draggable or not. |
| EarlySliders.EarlySlider.OnMouseDown | Capslide/Assets/Scripts/Slider.cs:159-169 | A slider that is not draggable stays unchanged. Otherwise the tweens stop and the knob jumps to the cursor on the bar. |
| EarlySliders.EarlySlider.AdjustFillBars | Capslide/Assets/Scripts/Slider.cs:111-126 | Only the Left slider's left bar or the Right slider's right bar changes, to the fill width. |
| EarlySliders.EarlySlider.OnMouseDrag | Capslide/Assets/Scripts/Slider.cs:170-180 | A slider that is not draggable stays unchanged. Otherwise the knob follows the cursor and the placement's own fill bar follows the knob. The other bar is kept. |
| EarlySliders.EarlySlider.OnMouseUp | Capslide/Assets/Scripts/Slider.cs:182-191 | Dragging stops. A knob away from its origin starts back, and the left bar empties, over distance/200. A knob at its origin starts nothing and keeps both tween times. |
| EarlySliders.EarlySlider.ResetSlide | Capslide/Assets/Scripts/Slider.cs:193-197 | The tweens stop, and the left bar empties over 0.1 s. |
| EarlySliders.EarlySlider.ReturnArrived | Capslide/Assets/Scripts/Ease.cs:126 | The return ends exactly at the origin. |
| EarlySliders.EarlySlider.ShrinkArrived | Capslide/Assets/Scripts/Ease.cs:252 | The left bar ends exactly empty. |
| Ads.AdCounter | Capslide/Assets/Scripts/Services/AdManager.cs:156-168 | A score of 256 or more adds one. The ad is due exactly when the count reaches 5, and then the count resets to 0. Otherwise the count is kept. A count below 5 stays below 5. |
| Ads.Qualifying | Capslide/Assets/Scripts/Services/AdManager.cs:159 | The number of qualifying levels is at most the number of levels. It is 0 exactly when no score reaches 256, and all of them exactly when every score does. |
| Ads.AdsOverRunCounts | Capslide/Assets/Scripts/Services/AdManager.cs:156-168 | Over any run of levels, one ad is due per five qualifying levels, and the counter ends on the remainder. |
| Ads.AdManager.constructor | Capslide/Assets/Scripts/Services/AdManager.cs:29-31 | No interstitial has been viewed and no ad is running. |
| Ads.AdManager.PlayInterstitialAd | Capslide/Assets/Scripts/Services/AdManager.cs:65-80 | On Android or iOS with the ad ready, an ad is running and the platform's interstitial is shown. Otherwise nothing happens. |
| Ads.AdManager.PlayRewardedAd | Capslide/Assets/Scripts/Services/AdManager.cs:85-103 | Nothing happens while an ad runs. Otherwise it behaves like PlayInterstitialAd with the rewarded placement. |
| Ads.AdManager.OnUnityAdsDidStart | Capslide/Assets/Scripts/Services/AdManager.cs:115-119 | The audio is muted. |
| Ads.AdManager.OnUnityAdsDidFinish | Capslide/Assets/Scripts/Services/AdManager.cs:121-149 | A rewarded ad grants one reward on Finished or Failed, and none on Skipped. An interstitial is viewed only when Finished. Afterwards no ad runs and the audio is on. |
| Ads.AdManager.InterstitialAdReady | Capslide/Assets/Scripts/Services/AdManager.cs:156-168 | The profile's counter and the answer are exactly AdCounter's. |
| Ads.InterstitialPlacement | Capslide/Assets/Scripts/Services/AdManager.cs:17-21 | The placement is an interstitial and not a rewarded ad. |
| Ads.RewardedPlacement | Capslide/Assets/Scripts/Services/AdManager.cs:18-22 | The placement is a rewarded ad and not an interstitial. |

## Left out

- Rendering, sprites, particles, texts, fill images and audio are not modelled. This includes `SetCapsuleColors` and the countdown ticks. Audio muting is one flag.
- Persistence to disk, the cloud and leaderboard services, and the ad SDK calls are not modelled. Whether an ad is ready is a parameter. A shown ad is recorded in `Ads.AdManager.shown`.
- `RewardTokens` is not part of this model: neither round controller here defines it. `Ads.AdManager` counts its calls in `rewardsGranted`.
- The menu transitions and settings buttons of `Managers/GameManager.cs` are not modelled. Only its fields are modelled, as `Profile.GameManager`. The two play counters, `tokensNeededForTokenPlayer`, `palettesUnlocked` and `paletteManager` are not among its fields shown. They are kept because the snapshot copies the first four and the palette getters read the last.
- The palette assets are modelled as classes with fixed colour lists. The four colours the manager's getters read beyond the main list are not among the fields of `Palette.cs` shown.
- Physics is not modelled: gravity, impulses and velocities come as parameters or are recorded, not integrated. `HasTouchedSlider` always answers true, so scoring depends only on the tag and the speed.
- `Gameplay.Round.DragOn`/`DragOff` (the drag indicator shown while a slider is held) are not modelled, as they only drive the interface.
- Tweens are modelled by their first and last step (`ReturnArrived`, `ShrinkArrived`, `Ease.TranslateXToStart`). The frames in between are not modelled.
- Unity's single-precision floats are modelled as exact reals, and `int` as unbounded integers. No rounding or overflow is modelled.
- EarlySliders.AxisDistance: a slider with neither freeze flag measures the sum of the axis distances rather than the straight-line distance. That needs a square root. With either flag set the two agree, because the knob moves along one axis only.
- Gameplay.Round.DispenseCapsule and EarlyGameplay.EarlyRound.DispenseCapsule: a running game must not dispense from an empty dispenser. The source would index past the pool there, and its callers never do it.
- The first countdown frame shows the whole three seconds. The one-second wait before the first dispense is a separate call to `DispenseCapsule`.
- Concurrent countdown coroutines (a reset during a countdown) are not modelled.
- `Levels/Slider.cs` fill bars and `GetBarRatio` are not modelled. Nothing in the round depends on them.
- The earlier slider's `GetPlacement` gives the start of the bar for both Top and Bottom, as written. The mispaired vertical ends make Top the top and Bottom also the top. This is kept as written, not corrected.
- Gameplay.Round.DispenseCapsule: releases capsules with the corrected `Gameplay.Released`, which clears a star the dispense does not grant. The source only ever sets the star, so a star kept through a reset survives (see Findings). The as-written release is `Gameplay.ReleasedAsWritten`.
- Gameplay.Round.ReleaseNext: releases one capsule with the corrected `Gameplay.Released`, not the as-written `Gameplay.ReleasedAsWritten` (see Findings).
- Gameplay.Round.CapsuleDispenserTimer: its dispense releases through the corrected `Gameplay.Released`, not the as-written `Gameplay.ReleasedAsWritten` (see Findings).
- Gameplay.Round.AfterCapsuleExit: its refill dispense releases through the corrected `Gameplay.Released`, not the as-written `Gameplay.ReleasedAsWritten` (see Findings).
- Gameplay.Round.Update: its dispense timer releases through the corrected `Gameplay.Released`, not the as-written `Gameplay.ReleasedAsWritten` (see Findings).
- EarlySliders.EarlySlider.Update: moves the knob with the corrected `EarlySliders.AdjustSliderRange`, which clamps between the lesser and the greater end. The source clamps a vertical bar between its top and its bottom in that order, which pins the knob to an end (see Findings). The as-written clamp is `Sliders.AdjustSliderRange`, applied to the earlier slider's ends in `EarlySliders.VerticalKnobPinned`.
- EarlySliders.EarlySlider.OnMouseDown: moves the knob with the corrected `EarlySliders.AdjustSliderRange`, not the as-written clamp (see Findings).
- EarlySliders.EarlySlider.OnMouseDrag: moves the knob with the corrected `EarlySliders.AdjustSliderRange`, not the as-written clamp (see Findings).
- The earlier round never clears a capsule's star. The capsule script it drives is not part of this model, so `EarlyGameplay.Released` keeps an existing star.

## Findings

| source | as written | input that shows it | evidently intended | confidence | as-written member | corrected member |
|---|---|---|---|---|---|---|
| Capslide/Assets/Scripts/Managers/GameplayManager.cs:236-237 | A dispense only ever sets a capsule's star. `ResetMainVariables` deactivates capsules without clearing it. Only the dead-zone exit (Capsule.cs:104-108) clears it. | A star capsule still in play when the level is reset or left comes back starred in the next round, without a star grant. | A released capsule is starred exactly when this dispense grants a star. | medium, not executed | Gameplay.ReleasedAsWritten, Gameplay.StarOutlivesReset | Gameplay.Released |
| Capslide/Assets/Scripts/Slider.cs:45-100 | For a vertical bar `startpoint` is the top and `endpoint` the bottom. `Mathf.Clamp(y, start.y, end.y)` with min above max returns one of the two ends. | A bar of height 20 centred at the origin, touched at its centre, puts the knob at y = 10, the top. | The knob follows the touch along the bar. | high, not executed | EarlySliders.AwakeEndpoints, EarlySliders.VerticalKnobPinned, EarlySliders.CentreTouchJumpsToTop | EarlySliders.AdjustSliderRange, EarlySliders.VerticalKnobFollows |
