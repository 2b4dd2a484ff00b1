/// The arithmetic of the tweening utility: hex-colour validation and decoding,
/// colour formats, integer-power easing curves and the per-axis interpolation
/// every tween uses. The frame-by-frame tweens themselves are not modelled;
/// `TranslateXToStart` gives the state a tween sets before its first frame.
module Ease {
  import opened Engine

  datatype Easing = Linear | EaseIn | EaseOut | EaseInOut

  datatype Axis = X | Y | Z | XY | XZ | YZ | XYZ

  datatype Format = Standard | Scalar | Percentage

  /// The characters `CheckHexFormat` accepts after lowercasing.
  const VALID_CHARS: string := "0123456789abcdef"

  /// `char.ToLower` on the ASCII letters; every other character is kept.
  function ToLower(c: char): (r: char)
    ensures 'A' <= c <= 'Z' ==> 'a' <= r <= 'z' && r as int - 'a' as int == c as int - 'A' as int
    ensures !('A' <= c <= 'Z') ==> r == c
    ensures 'a' <= r <= 'z' <==> 'a' <= c <= 'z' || 'A' <= c <= 'Z'
  {
    if 'A' <= c <= 'Z' then (c as int - 'A' as int + 'a' as int) as char else c
  }

  /// A hex digit in either case, defined on character ranges.
  predicate IsHexDigit(c: char)
  {
    '0' <= c <= '9' || 'a' <= c <= 'f' || 'A' <= c <= 'F'
  }

  /// The value 0..15 of a hex digit, from its character code.
  function DigitValue(c: char): (d: int)
    requires IsHexDigit(c)
    ensures 0 <= d < 16
  {
    if '0' <= c <= '9' then c as int - '0' as int
    else if 'a' <= c <= 'f' then c as int - 'a' as int + 10
    else c as int - 'A' as int + 10
  }

  /// One leading '#' is removed, as `hexCode.Remove(0, 1)` does.
  function StripHash(s: string): (r: string)
    ensures |s| > 0 && s[0] == '#' ==> |r| == |s| - 1
    ensures !(|s| > 0 && s[0] == '#') ==> r == s
  {
    if |s| > 0 && s[0] == '#' then s[1..] else s
  }

  function Lowered(s: string): string
  {
    seq(|s|, i requires 0 <= i < |s| => ToLower(s[i]))
  }

  /// The hex codes the game accepts: an optional '#' and six hex digits.
  predicate IsHexCode(s: string)
  {
    var t := StripHash(s);
    |t| == 6 && forall i :: 0 <= i < 6 ==> IsHexDigit(t[i])
  }

  /// Lowercasing maps exactly the hex digits into `VALID_CHARS`.
  lemma LoweredDigit(c: char)
    ensures ToLower(c) in VALID_CHARS <==> IsHexDigit(c)
  {
    var l := ToLower(c);
    if l in VALID_CHARS {
      var k :| 0 <= k < |VALID_CHARS| && VALID_CHARS[k] == l;
      assert '0' <= l <= '9' || 'a' <= l <= 'f';
    }
    if IsHexDigit(c) {
      if '0' <= l <= '9' {
        assert VALID_CHARS[l as int - '0' as int] == l;
      } else {
        assert VALID_CHARS[l as int - 'a' as int + 10] == l;
      }
    }
  }

  /** `CheckHexFormat`: strip one '#', lowercase, then accept exactly the strings
      of length 6 whose every character occurs in `VALID_CHARS`. */
  method CheckHexFormat(hexString: string) returns (ok: bool)
    ensures ok <==> IsHexCode(hexString)
  {
    var s := hexString;
    if |s| > 0 && s[0] == '#' {
      s := s[1..];
    }
    s := Lowered(s);
    if |s| == 6 {
      var i := 0;
      while i < |s|
        invariant 0 <= i <= |s|
        invariant forall k :: 0 <= k < i ==> IsHexDigit(StripHash(hexString)[k])
      {
        LoweredDigit(StripHash(hexString)[i]);
        if !(s[i] in VALID_CHARS) {
          return false;
        }
        i := i + 1;
      }
      return true;
    }
    return false;
  }

  /** `CalculateDecimalValue`: the digit's value times 16 to the given power,
      case-insensitively; any other character gives the code of '0', 48. The
      power is 1 or 0, the only values the decoder passes. */
  function CalculateDecimalValue(hexLetter: char, powerValue: int): (r: int)
    requires 0 <= powerValue <= 1
    ensures IsHexDigit(hexLetter) ==> r == DigitValue(hexLetter) * (if powerValue == 1 then 16 else 1)
    ensures !IsHexDigit(hexLetter) ==> r == 48
  {
    var scale := if powerValue == 1 then 16 else 1;
    match ToLower(hexLetter)
    case '0' => 0 * scale
    case '1' => 1 * scale
    case '2' => 2 * scale
    case '3' => 3 * scale
    case '4' => 4 * scale
    case '5' => 5 * scale
    case '6' => 6 * scale
    case '7' => 7 * scale
    case '8' => 8 * scale
    case '9' => 9 * scale
    case 'a' => 10 * scale
    case 'b' => 11 * scale
    case 'c' => 12 * scale
    case 'd' => 13 * scale
    case 'e' => 14 * scale
    case 'f' => 15 * scale
    case _ => '0' as int
  }

  /// The value the decoder accumulates for channel `k` (0 red, 1 green, 2 blue).
  function Channel(code: string, k: int): int
    requires 0 <= k < 3 && |code| >= 6
  {
    CalculateDecimalValue(code[2 * k], 1) + CalculateDecimalValue(code[2 * k + 1], 0)
  }

  /// The colour `ConvertHexToRGB` produces: each channel over 255, alpha 1.
  function DecodedColor(hexCode: string): Color
    requires |StripHash(hexCode)| >= 6
  {
    var t := StripHash(hexCode);
    Color(Channel(t, 0) as real / 255.0, Channel(t, 1) as real / 255.0, Channel(t, 2) as real / 255.0, 1.0)
  }

  /// On a valid code every channel is `16 * high + low`, a byte value.
  lemma ChannelOfHexCode(hexCode: string, k: int)
    requires IsHexCode(hexCode) && 0 <= k < 3
    ensures var t := StripHash(hexCode);
      Channel(t, k) == 16 * DigitValue(t[2 * k]) + DigitValue(t[2 * k + 1])
      && 0 <= Channel(t, k) <= 255
  {
  }

  /** `ConvertHexToRGB`: the for-loop runs the digit position from 0 to 1 while
      the power runs from 1 down to 0, summing into the three channels. The
      source indexes six characters after the '#', so shorter codes are refused. */
  method ConvertHexToRGB(hexCode: string) returns (color: Color)
    requires |StripHash(hexCode)| >= 6
    ensures color == DecodedColor(hexCode)
  {
    var code := hexCode;
    if |code| > 0 && code[0] == '#' {
      code := code[1..];
    }
    var rCode, gCode, bCode := code[0..2], code[2..4], code[4..6];
    var rVal, gVal, bVal := 0, 0, 0;
    var index, power := 0, 1;
    while index < 2
      invariant 0 <= index <= 2 && power == 1 - index
      invariant rVal == (if index >= 1 then CalculateDecimalValue(rCode[0], 1) else 0)
                        + (if index == 2 then CalculateDecimalValue(rCode[1], 0) else 0)
      invariant gVal == (if index >= 1 then CalculateDecimalValue(gCode[0], 1) else 0)
                        + (if index == 2 then CalculateDecimalValue(gCode[1], 0) else 0)
      invariant bVal == (if index >= 1 then CalculateDecimalValue(bCode[0], 1) else 0)
                        + (if index == 2 then CalculateDecimalValue(bCode[1], 0) else 0)
    {
      rVal := rVal + CalculateDecimalValue(rCode[index], power);
      gVal := gVal + CalculateDecimalValue(gCode[index], power);
      bVal := bVal + CalculateDecimalValue(bCode[index], power);
      index, power := index + 1, power - 1;
    }
    color := Color(rVal as real / 255.0, gVal as real / 255.0, bVal as real / 255.0, 1.0);
  }

  /// A decoded valid code has every channel on the 0..1 scale and is opaque.
  lemma DecodedColorInRange(hexCode: string)
    requires IsHexCode(hexCode)
    ensures var c := DecodedColor(hexCode);
      0.0 <= c.r <= 1.0 && 0.0 <= c.g <= 1.0 && 0.0 <= c.b <= 1.0 && c.a == 1.0
  {
    ChannelOfHexCode(hexCode, 0);
    ChannelOfHexCode(hexCode, 1);
    ChannelOfHexCode(hexCode, 2);
  }

  /// The lowercase "#rrggbb" spelling of three byte values.
  function HexCodeOf(r: int, g: int, b: int): (s: string)
    requires 0 <= r < 256 && 0 <= g < 256 && 0 <= b < 256
    ensures |s| == 7 && s[0] == '#'
  {
    ['#', VALID_CHARS[r / 16], VALID_CHARS[r % 16], VALID_CHARS[g / 16],
     VALID_CHARS[g % 16], VALID_CHARS[b / 16], VALID_CHARS[b % 16]]
  }

  lemma ValidCharValue(d: int)
    requires 0 <= d < 16
    ensures IsHexDigit(VALID_CHARS[d]) && DigitValue(VALID_CHARS[d]) == d
  {
  }

  /// Round trip: the decoder reads back every byte triple written as a hex code.
  lemma HexCodeRoundTrip(r: int, g: int, b: int)
    requires 0 <= r < 256 && 0 <= g < 256 && 0 <= b < 256
    ensures IsHexCode(HexCodeOf(r, g, b))
    ensures DecodedColor(HexCodeOf(r, g, b))
      == Color(r as real / 255.0, g as real / 255.0, b as real / 255.0, 1.0)
  {
    var s := HexCodeOf(r, g, b);
    var t := StripHash(s);
    assert t == s[1..];
    ValidCharValue(r / 16); ValidCharValue(r % 16);
    ValidCharValue(g / 16); ValidCharValue(g % 16);
    ValidCharValue(b / 16); ValidCharValue(b % 16);
    assert Channel(t, 0) == r;
    assert Channel(t, 1) == g;
    assert Channel(t, 2) == b;
  }

  /** `ColorChangeFromHex` as far as its result goes: an invalid code leaves the
      sprite's colour untouched; a valid one ends on the decoded colour with the
      requested alpha. The intermediate frames keep the original colour. */
  method ColorChangeFromHex(current: Color, hexString: string, alpha: real) returns (final: Color)
    ensures !IsHexCode(hexString) ==> final == current
    ensures IsHexCode(hexString) ==> final == DecodedColor(hexString).(a := alpha)
  {
    var valid := CheckHexFormat(hexString);
    if !valid {
      return current;
    }
    var fs := ConvertHexToRGB(hexString);
    final := fs.(a := alpha);
  }

  /** `GetFormattedColor`: the format picks the multiplier 255, 1 or 100 and every
      component, alpha included, is divided by it; multiplying back restores the
      colour. */
  function GetFormattedColor(color: Color, colorFormat: Format): (r: (Color, int))
    ensures colorFormat == Standard ==> r.1 == 255
    ensures colorFormat == Scalar ==> r.1 == 1
    ensures colorFormat == Percentage ==> r.1 == 100
    ensures r.0.r * r.1 as real == color.r && r.0.g * r.1 as real == color.g
    ensures r.0.b * r.1 as real == color.b && r.0.a * r.1 as real == color.a
  {
    var multiplier := match colorFormat
      case Standard => 255
      case Scalar => 1
      case Percentage => 100;
    var m := multiplier as real;
    (Color(color.r / m, color.g / m, color.b / m, color.a / m), multiplier)
  }

  /// `f` raised to a natural power, multiplying on the right as the loop does.
  function Power(f: real, n: nat): real
  {
    if n == 0 then 1.0 else Power(f, n - 1) * f
  }

  lemma {:induction false} PowerOfOne(n: nat)
    ensures Power(1.0, n) == 1.0
  {
    if n > 0 {
      PowerOfOne(n - 1);
    }
  }

  lemma {:induction false} PowerOfZero(n: nat)
    requires n >= 1
    ensures Power(0.0, n) == 0.0
  {
  }

  /** `EaseIn`: starts at 1 and multiplies by `f` once per unit of the power,
      so the result is `f` to that power, 1 for power 0. */
  method EaseIn(f: real, powInt: nat) returns (result: real)
    ensures result == Power(f, powInt)
    ensures powInt == 0 ==> result == 1.0
  {
    result := 1.0;
    var p := powInt;
    while p != 0
      invariant 0 <= p <= powInt
      invariant result == Power(f, powInt - p)
    {
      p := p - 1;
      result := result * f;
    }
  }

  /// `EaseOut`: one minus the power of the remaining distance.
  function EaseOutValue(f: real, powInt: nat): (r: real)
    ensures powInt == 0 ==> r == 0.0
  {
    1.0 - Power(1.0 - f, powInt)
  }

  /// With power 1 every curve is the identity on the time ratio.
  lemma PowerOneCurves(ease: Easing, f: real)
    ensures Curve(ease, f, 1) == f
  {
    assert Power(f, 1) == Power(f, 0) * f;
    assert Power(1.0 - f, 1) == Power(1.0 - f, 0) * (1.0 - f);
  }

  /// `EaseInOut`: interpolates from the ease-in to the ease-out curve by `f`.
  function EaseInOutValue(f: real, powInt: nat): real
  {
    Lerp(Power(f, powInt), EaseOutValue(f, powInt), f)
  }

  /// The interpolation parameter a curve gives for a time ratio.
  function Curve(ease: Easing, timeRatio: real, power: nat): real
  {
    match ease
    case Linear => timeRatio
    case EaseIn => Power(timeRatio, power)
    case EaseOut => EaseOutValue(timeRatio, power)
    case EaseInOut => EaseInOutValue(timeRatio, power)
  }

  /// Every curve with a positive power starts at 0 and ends at 1.
  lemma CurveEnds(ease: Easing, power: nat)
    requires power >= 1
    ensures Curve(ease, 0.0, power) == 0.0 && Curve(ease, 1.0, power) == 1.0
  {
    PowerOfOne(power);
    PowerOfZero(power);
  }

  /** `CalculateVector`: each component whose change flag is set is interpolated
      from the original to the final vector along the curve; the others keep the
      original vector's value. */
  function CalculateVector(ease: Easing, OV: Vec3, FV: Vec3, timeRatio: real, power: nat,
                           changeX: bool, changeY: bool, changeZ: bool): (v: Vec3)
    ensures !changeX ==> v.x == OV.x
    ensures !changeY ==> v.y == OV.y
    ensures !changeZ ==> v.z == OV.z
  {
    var t := Curve(ease, timeRatio, power);
    Vec3(if changeX then Lerp(OV.x, FV.x, t) else OV.x,
         if changeY then Lerp(OV.y, FV.y, t) else OV.y,
         if changeZ then Lerp(OV.z, FV.z, t) else OV.z)
  }

  /// A tween with a positive power starts on the original vector and ends on the final one.
  lemma CalculateVectorEnds(ease: Easing, OV: Vec3, FV: Vec3, power: nat)
    requires power >= 1
    ensures CalculateVector(ease, OV, FV, 0.0, power, true, true, true) == OV
    ensures CalculateVector(ease, OV, FV, 1.0, power, true, true, true) == FV
  {
    CurveEnds(ease, power);
  }

  /// `GetAxisVector`: 1 on exactly the axes the value names, 0 elsewhere.
  function GetAxisVector(axis: Axis): (v: Vec3)
    ensures v.x == (if axis in {X, XY, XZ, XYZ} then 1.0 else 0.0)
    ensures v.y == (if axis in {Y, XY, YZ, XYZ} then 1.0 else 0.0)
    ensures v.z == (if axis in {Z, XZ, YZ, XYZ} then 1.0 else 0.0)
  {
    match axis
    case X => Vec3(1.0, 0.0, 0.0)
    case Y => Vec3(0.0, 1.0, 0.0)
    case Z => Vec3(0.0, 0.0, 1.0)
    case XY => Vec3(1.0, 1.0, 0.0)
    case XZ => Vec3(1.0, 0.0, 1.0)
    case YZ => Vec3(0.0, 1.0, 1.0)
    case XYZ => Vec3(1.0, 1.0, 1.0)
  }

  /** The position `TranslateXTo` sets before its first yield. A zero duration
      jumps to the target x at once; a negative one skips the loop and lands on
      the target as well; a positive one shows the first interpolated frame. */
  function TranslateXToStart(pos: Vec3, posX: real, duration: real, power: nat, ease: Easing): (r: Vec3)
    ensures r.y == pos.y && r.z == pos.z
    ensures duration <= 0.0 ==> r.x == posX
    ensures duration > 0.0 && (ease == Linear || power >= 1) ==> r == pos
  {
    var target := Vec3(posX, pos.y, pos.z);
    if duration == 0.0 then target
    else if 0.0 <= duration then
      CurveEndsAtZero(ease, power);
      Vec3(CalculateVector(ease, pos, target, 0.0 / duration, power, true, false, false).x, pos.y, pos.z)
    else target
  }

  lemma CurveEndsAtZero(ease: Easing, power: nat)
    ensures ease == Linear || power >= 1 ==> Curve(ease, 0.0, power) == 0.0
  {
    if power >= 1 {
      CurveEnds(ease, power);
    }
  }
}
