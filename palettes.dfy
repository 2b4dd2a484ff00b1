/// Colour palettes and the shop buttons that equip them (Palette.cs,
/// PaletteButton.cs, Managers/PaletteManager.cs). Palettes are assets compared
/// by reference; at most one button of the shop shows as equipped, and the
/// manager's main palette is the one the game reads its colours from.
module Palettes {
  import opened Engine

  /// The number of colours a palette button shows.
  const PALETTE_SIZE: int := 5

  /** A palette asset. The last four colours are read by the manager's getters
      but are not among the fields of the Palette.cs shown; they are kept here
      so those getters have something to return. */
  class Palette {
    const id: int
    const colors: seq<Color>
    const scoreColor: Color
    const capsuleTimerColor: Color
    const backButtonColor: Color
    const retryButtonColor: Color
    const rewardedAdButtonColor: Color
    const tokenColor: Color

    constructor (id: int, colors: seq<Color>, scoreColor: Color, capsuleTimerColor: Color,
                 backButtonColor: Color, retryButtonColor: Color,
                 rewardedAdButtonColor: Color, tokenColor: Color)
      ensures this.id == id && this.colors == colors
      ensures this.scoreColor == scoreColor && this.capsuleTimerColor == capsuleTimerColor
      ensures this.backButtonColor == backButtonColor && this.retryButtonColor == retryButtonColor
      ensures this.rewardedAdButtonColor == rewardedAdButtonColor && this.tokenColor == tokenColor
    {
      this.id := id;
      this.colors := colors;
      this.scoreColor := scoreColor;
      this.capsuleTimerColor := capsuleTimerColor;
      this.backButtonColor := backButtonColor;
      this.retryButtonColor := retryButtonColor;
      this.rewardedAdButtonColor := rewardedAdButtonColor;
      this.tokenColor := tokenColor;
    }
  }

  /** One button of the palette shop: the palette it sells, the colour squares
      it shows, whether it is equipped and unlocked, and whether its checkmark
      is on. The manager it equips into is passed in, standing for the
      manager singleton. */
  class PaletteButton {
    const palette: Palette
    const squares: array<Color>
    var isEquipped: bool
    var isUnlocked: bool
    var checkmarkShown: bool

    constructor (palette: Palette, squares: array<Color>, isUnlocked: bool)
      ensures this.palette == palette && this.squares == squares && this.isUnlocked == isUnlocked
      ensures !isEquipped && !checkmarkShown
    {
      this.palette := palette;
      this.squares := squares;
      this.isUnlocked := isUnlocked;
      isEquipped := false;
      checkmarkShown := false;
    }

    /// `Equip`: marks the button equipped, makes its palette the main one and shows the checkmark.
    method Equip(pm: PaletteManager)
      modifies this`isEquipped, this`checkmarkShown, pm`mainPalette
      ensures isEquipped && checkmarkShown && pm.mainPalette == palette
    {
      isEquipped := true;
      pm.mainPalette := palette;
      checkmarkShown := true;
    }

    /// `Unequip`: clears the flag and hides the checkmark; the main palette is not touched.
    method Unequip()
      modifies this`isEquipped, this`checkmarkShown
      ensures !isEquipped && !checkmarkShown
    {
      isEquipped := false;
      checkmarkShown := false;
    }

    /** `OnEnable`: copies the first five colours of the palette into the
        squares, then equips the button when its palette is the main one. The
        source indexes five squares and five colours, so both must exist. */
    method OnEnable(pm: PaletteManager)
      requires squares.Length >= PALETTE_SIZE && |palette.colors| >= PALETTE_SIZE
      modifies squares, this`isEquipped, this`checkmarkShown, pm`mainPalette
      ensures squares[..PALETTE_SIZE] == palette.colors[..PALETTE_SIZE]
      ensures squares[PALETTE_SIZE..] == old(squares[PALETTE_SIZE..])
      ensures pm.mainPalette == old(pm.mainPalette)
      ensures old(pm.mainPalette) == palette ==> isEquipped && checkmarkShown
      ensures old(pm.mainPalette) != palette ==>
        isEquipped == old(isEquipped) && checkmarkShown == old(checkmarkShown)
    {
      var i := 0;
      while i < PALETTE_SIZE
        invariant 0 <= i <= PALETTE_SIZE
        invariant squares[..i] == palette.colors[..i]
        invariant squares[PALETTE_SIZE..] == old(squares[PALETTE_SIZE..])
        invariant pm.mainPalette == old(pm.mainPalette)
        invariant isEquipped == old(isEquipped) && checkmarkShown == old(checkmarkShown)
      {
        squares[i] := palette.colors[i];
        i := i + 1;
      }
      if pm.mainPalette == palette {
        Equip(pm);
      }
    }
  }

  /** The palette manager: the main palette the game reads its colours from
      and the buttons of the shop. */
  class PaletteManager {
    var mainPalette: Palette
    const palettes: array<PaletteButton>

    constructor (mainPalette: Palette, palettes: array<PaletteButton>)
      ensures this.mainPalette == mainPalette && this.palettes == palettes
    {
      this.mainPalette := mainPalette;
      this.palettes := palettes;
    }

    /** `Equip`: an equipped or locked button is refused and nothing changes.
        Otherwise every equipped button of the shop is unequipped, then the
        chosen one is equipped: it is the only equipped button afterwards, its
        palette is the main one, and the colour getters read from it. Buttons
        that were not equipped are left as they were. */
    method Equip(pb: PaletteButton)
      modifies this`mainPalette, pb, palettes[..]
      ensures old(pb.isEquipped) || !old(pb.isUnlocked) ==>
        mainPalette == old(mainPalette) && unchanged(pb) && forall k :: 0 <= k < palettes.Length ==> unchanged(palettes[k])
      ensures !old(pb.isEquipped) && old(pb.isUnlocked) ==>
        && mainPalette == pb.palette
        && pb.isEquipped && pb.checkmarkShown && pb.isUnlocked
        && (forall k :: 0 <= k < palettes.Length ==> (palettes[k].isEquipped <==> palettes[k] == pb))
        && (forall k :: 0 <= k < palettes.Length && palettes[k] != pb ==>
              palettes[k].isUnlocked == old(palettes[k].isUnlocked)
              && (old(palettes[k].isEquipped) ==> !palettes[k].checkmarkShown)
              && (!old(palettes[k].isEquipped) ==> palettes[k].checkmarkShown == old(palettes[k].checkmarkShown)))
        && (forall i :: 0 <= i < |pb.palette.colors| ==> GetColor(i) == pb.palette.colors[i])
        && GetScoreColor() == pb.palette.scoreColor
        && GetTokenColor() == pb.palette.tokenColor
        && AtMostOneEquipped(palettes)
      ensures old(AtMostOneEquipped(palettes)) ==> AtMostOneEquipped(palettes)
    {
      if pb.isEquipped || !pb.isUnlocked {
        return;
      }
      var i := 0;
      while i < palettes.Length
        invariant 0 <= i <= palettes.Length
        invariant unchanged(pb) && mainPalette == old(mainPalette)
        invariant forall k :: 0 <= k < i ==> !palettes[k].isEquipped
        invariant forall k :: 0 <= k < palettes.Length ==>
          palettes[k].isUnlocked == old(palettes[k].isUnlocked)
          && (unchanged(palettes[k])
              || (old(palettes[k].isEquipped) && !palettes[k].isEquipped && !palettes[k].checkmarkShown))
      {
        if palettes[i].isEquipped {
          palettes[i].Unequip();
        }
        i := i + 1;
      }
      pb.Equip(this);
    }

    /// `GetColor`: the colour at the given index of the main palette.
    function GetColor(index: int): (r: Color)
      reads this
      requires 0 <= index < |mainPalette.colors|
      ensures r in mainPalette.colors && r == mainPalette.colors[index]
    {
      mainPalette.colors[index]
    }

    /// The named colour getters: each answers from the main palette.
    function GetScoreColor(): (r: Color)
      reads this
      ensures r == mainPalette.scoreColor
    {
      mainPalette.scoreColor
    }

    function GetCapsuleTimerColor(): (r: Color)
      reads this
      ensures r == mainPalette.capsuleTimerColor
    {
      mainPalette.capsuleTimerColor
    }

    function GetBackButtonColor(): (r: Color)
      reads this
      ensures r == mainPalette.backButtonColor
    {
      mainPalette.backButtonColor
    }

    function GetRetryButtonColor(): (r: Color)
      reads this
      ensures r == mainPalette.retryButtonColor
    {
      mainPalette.retryButtonColor
    }

    function GetRewardedAdButtonColor(): (r: Color)
      reads this
      ensures r == mainPalette.rewardedAdButtonColor
    {
      mainPalette.rewardedAdButtonColor
    }

    function GetTokenColor(): (r: Color)
      reads this
      ensures r == mainPalette.tokenColor
    {
      mainPalette.tokenColor
    }
  }

  /// At most one button of a shop is equipped: the state `PaletteManager.Equip` leaves.
  ghost predicate AtMostOneEquipped(palettes: array<PaletteButton>)
    reads palettes, set k | 0 <= k < palettes.Length :: palettes[k]
  {
    forall j, k :: 0 <= j < palettes.Length && 0 <= k < palettes.Length ==>
      palettes[j].isEquipped && palettes[k].isEquipped ==> palettes[j] == palettes[k]
  }
}
