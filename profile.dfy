/// The player's profile that the game manager holds, and the snapshot of it
/// that is written to the save file (CapslideData.cs). Writing the file
/// itself is not modelled.
module Profile {
  import opened Palettes

  /// The number of levels, each with one highscore.
  const LEVEL_COUNT: int := 6
  /// The number of palettes in the shop, each with an unlocked flag.
  const PALETTE_COUNT: int := 56

  /** The part of the game manager's state the rest of the model reads and
      writes: currency, highscores, unlocked palettes, the settings toggles and
      the two play counters. */
  class GameManager {
    var tokens: int
    var tokensNeededForTokenPlayer: int
    const levelHighscores: array<int>
    const palettesUnlocked: array<bool>
    var bgmON: bool
    var sfxON: bool
    var screenShake: bool
    var powerSaving: bool
    var levelsPlayed: int
    var levelsPlayedUntilDisplayAd: int
    const paletteManager: PaletteManager

    /// A fresh profile with the field defaults: no tokens, six zero highscores, nothing unlocked, every toggle off.
    constructor (paletteManager: PaletteManager)
      ensures this.paletteManager == paletteManager
      ensures fresh(levelHighscores) && levelHighscores.Length == LEVEL_COUNT
      ensures fresh(palettesUnlocked) && palettesUnlocked.Length == PALETTE_COUNT
      ensures tokens == 0 && levelsPlayed == 0 && levelsPlayedUntilDisplayAd == 0
    {
      this.paletteManager := paletteManager;
      tokens := 0;
      tokensNeededForTokenPlayer := 0;
      levelHighscores := new int[LEVEL_COUNT](_ => 0);
      palettesUnlocked := new bool[PALETTE_COUNT](_ => false);
      bgmON, sfxON, screenShake, powerSaving := false, false, false, false;
      levelsPlayed := 0;
      levelsPlayedUntilDisplayAd := 0;
    }
  }

  /** The save-file snapshot. Its arrays are fresh copies, so later changes to
      the manager do not reach a snapshot already taken. Power saving has no
      field, and the ad counter is never written, so it keeps its default 0. */
  class CapslideData {
    var paletteID: int
    var tokens: int
    var tokensNeededForTokenPlayer: int
    var levelHighscores: array<int>
    var paletteUnlocked: array<bool>
    var bgmToggle: bool
    var sfxToggle: bool
    var screenShakeToggle: bool
    var levelsPlayed: int
    var levelsPlayedUntilDisplayAd: int

    /// The snapshot constructor: six highscores and 56 unlocked flags copied element by element.
    constructor (gm: GameManager)
      requires gm.levelHighscores.Length >= LEVEL_COUNT && gm.palettesUnlocked.Length >= PALETTE_COUNT
      ensures paletteID == gm.paletteManager.mainPalette.id
      ensures tokens == gm.tokens && tokensNeededForTokenPlayer == gm.tokensNeededForTokenPlayer
      ensures fresh(levelHighscores) && levelHighscores.Length == LEVEL_COUNT
      ensures levelHighscores[..] == gm.levelHighscores[..LEVEL_COUNT]
      ensures fresh(paletteUnlocked) && paletteUnlocked.Length == PALETTE_COUNT
      ensures paletteUnlocked[..] == gm.palettesUnlocked[..PALETTE_COUNT]
      ensures bgmToggle == gm.bgmON && sfxToggle == gm.sfxON && screenShakeToggle == gm.screenShake
      ensures levelsPlayed == gm.levelsPlayed
      ensures levelsPlayedUntilDisplayAd == 0
    {
      paletteID := gm.paletteManager.mainPalette.id;
      tokens := gm.tokens;
      tokensNeededForTokenPlayer := gm.tokensNeededForTokenPlayer;
      levelsPlayedUntilDisplayAd := 0;

      var highscores := new int[LEVEL_COUNT];
      var i := 0;
      while i < highscores.Length
        invariant 0 <= i <= highscores.Length
        invariant highscores[..i] == gm.levelHighscores[..i]
      {
        highscores[i] := gm.levelHighscores[i];
        i := i + 1;
      }
      levelHighscores := highscores;

      var unlocked := new bool[PALETTE_COUNT];
      i := 0;
      while i < unlocked.Length
        invariant 0 <= i <= unlocked.Length
        invariant unlocked[..i] == gm.palettesUnlocked[..i]
        invariant highscores[..] == gm.levelHighscores[..LEVEL_COUNT]
      {
        unlocked[i] := gm.palettesUnlocked[i];
        i := i + 1;
      }
      paletteUnlocked := unlocked;

      bgmToggle := gm.bgmON;
      sfxToggle := gm.sfxON;
      screenShakeToggle := gm.screenShake;
      levelsPlayed := gm.levelsPlayed;
    }
  }
}
