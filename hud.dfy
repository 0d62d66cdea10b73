/**
 * The heads-up display of `src/game/UI.ts`: a health bar whose fill width is
 * the clamped health in percent and whose colour shows one of three bands,
 * and an ammo counter showing "current/max" in one of three colours.  The
 * DOM elements are reduced to the style values the two updates write.
 */
module Hud {
  import opened Geometry

  /** The CSS colours the display uses. */
  datatype Colour = Green | Yellow | Red | White

  /** The CSS text each colour is written as. */
  function Css(c: Colour): string {
    match c
    case Green => "#00ff00"
    case Yellow => "#ffff00"
    case Red => "#ff0000"
    case White => "#fff"
  }

  /** Different colours are written as different CSS texts. */
  lemma CssInjective(a: Colour, b: Colour)
    ensures Css(a) == Css(b) <==> a == b
  {
    if a != b {
      assert |Css(a)| != |Css(b)| || Css(a)[1] != Css(b)[1] || Css(a)[3] != Css(b)[3];
    }
  }

  /** The bar colour: green above 60, yellow above 30, red otherwise. */
  function HealthBand(h: real): (c: Colour)
    ensures c != White
    ensures c == Green <==> h > 60.0
    ensures c == Yellow <==> 30.0 < h <= 60.0
    ensures c == Red <==> h <= 30.0
  {
    if h > 60.0 then Green else if h > 30.0 then Yellow else Red
  }

  /**
   * The counter colour: red when empty, yellow at 5 or fewer (negative counts
   * included), white otherwise.
   */
  function AmmoBand(current: int): (c: Colour)
    ensures c != Green
    ensures c == Red <==> current == 0
    ensures c == Yellow <==> current != 0 && current <= 5
    ensures c == White <==> current > 5
  {
    if current == 0 then Red else if current <= 5 then Yellow else White
  }

  /** `Math.max(0, Math.min(100, health))`. */
  function ClampHealth(h: real): (v: real)
    ensures 0.0 <= v <= 100.0
    ensures 0.0 <= h <= 100.0 ==> v == h
    ensures h < 0.0 ==> v == 0.0
    ensures h > 100.0 ==> v == 100.0
  {
    Clamp(0.0, 100.0, h)
  }

  // ---------------------------------------------------------------------
  // The counter text

  function Digit(d: int): char
    requires 0 <= d < 10
  {
    "0123456789"[d]
  }

  predicate IsDigit(c: char) {
    '0' <= c <= '9'
  }

  function DigitValue(c: char): int
    requires IsDigit(c)
  {
    c as int - '0' as int
  }

  /** A natural number in decimal, no leading zeros. */
  function NatText(n: nat): (s: string)
    ensures |s| > 0 && forall i :: 0 <= i < |s| ==> IsDigit(s[i])
    ensures |s| > 1 ==> s[0] != '0'
    decreases n
  {
    if n < 10 then [Digit(n)] else NatText(n / 10) + [Digit(n % 10)]
  }

  /**
   * How JavaScript writes an integer in a template string, for magnitudes
   * below 10^21 (larger ones are written in exponent form).
   */
  function IntText(n: int): string {
    if n < 0 then "-" + NatText(-n) else NatText(n)
  }

  /** The value of a non-empty run of digits. */
  function NatValue(s: string): nat
    requires |s| > 0 && forall i :: 0 <= i < |s| ==> IsDigit(s[i])
    decreases |s|
  {
    if |s| == 1 then DigitValue(s[0]) else NatValue(s[..|s| - 1]) * 10 + DigitValue(s[|s| - 1])
  }

  function ParseNat(s: string): Option<nat> {
    if |s| > 0 && forall i :: 0 <= i < |s| ==> IsDigit(s[i]) then Some(NatValue(s)) else None
  }

  /** Reads back what `IntText` writes; `None` for anything else that is not a number. */
  function ParseInt(s: string): Option<int> {
    if |s| > 0 && s[0] == '-' then
      match ParseNat(s[1..])
      case None => None
      case Some(n) => Some(0 - n as int)
    else match ParseNat(s)
      case None => None
      case Some(n) => Some(n)
  }

  lemma {:induction false} NatTextRoundTrip(n: nat)
    ensures NatValue(NatText(n)) == n
    decreases n
  {
    if n >= 10 {
      var s := NatText(n);
      assert s[..|s| - 1] == NatText(n / 10);
      NatTextRoundTrip(n / 10);
    }
  }

  lemma ParseNatText(n: nat)
    ensures ParseNat(NatText(n)) == Some(n)
  {
    NatTextRoundTrip(n);
  }

  lemma NegativeText(m: nat)
    ensures ParseInt("-" + NatText(m)) == Some(0 - m)
  {
    var t := "-" + NatText(m);
    ParseNatText(m);
    assert t[1..] == NatText(m);
  }

  /** Reading the text of an integer gives the integer back. */
  lemma IntTextRoundTrip(n: int)
    ensures ParseInt(IntText(n)) == Some(n)
  {
    if n < 0 {
      NegativeText(-n);
    } else {
      ParseNatText(n);
      assert IsDigit(NatText(n)[0]);
    }
  }

  /** `${current}/${max}`. */
  function AmmoText(current: int, max: int): string {
    IntText(current) + "/" + IntText(max)
  }

  /** Where the first '/' of a text is, if it has one. */
  function FirstSlash(s: string): (r: Option<nat>)
    ensures r.Some? ==> r.value < |s| && s[r.value] == '/' && forall j :: 0 <= j < r.value ==> s[j] != '/'
    ensures r.None? ==> forall j :: 0 <= j < |s| ==> s[j] != '/'
    decreases |s|
  {
    if s == [] then None
    else if s[0] == '/' then Some(0)
    else match FirstSlash(s[1..])
      case None => None
      case Some(k) => Some(k + 1)
  }

  /** Splits a counter text at its first '/'. */
  function ParseAmmo(s: string): Option<(int, int)> {
    match FirstSlash(s)
    case None => None
    case Some(i) =>
      match (ParseInt(s[..i]), ParseInt(s[i + 1..]))
      case (Some(c), Some(m)) => Some((c, m))
      case _ => None
  }

  lemma NoSlash(n: int)
    ensures forall i :: 0 <= i < |IntText(n)| ==> IntText(n)[i] != '/'
  {
  }

  /** The counter text shows both numbers, and they can be read back. */
  lemma AmmoTextRoundTrip(current: int, max: int)
    ensures ParseAmmo(AmmoText(current, max)) == Some((current, max))
  {
    var s := AmmoText(current, max);
    var a := IntText(current);
    NoSlash(current);
    NoSlash(max);
    assert s[|a|] == '/';
    assert FirstSlash(s) == Some(|a|) by {
      assert forall i :: 0 <= i < |a| ==> s[i] == a[i];
    }
    assert s[..|a|] == a;
    assert s[|a| + 1..] == IntText(max);
    IntTextRoundTrip(current);
    IntTextRoundTrip(max);
  }

  // ---------------------------------------------------------------------
  // The display

  class GameUI {
    var healthValue: real
    var maxAmmo: int
    var currentAmmo: int
    /** The health fill's width, in percent. */
    var fillWidth: real
    /** `healthFill.style.backgroundColor`. */
    var fillColour: string
    var ammoText: string
    /** `ammoCounter.style.color`. */
    var ammoColour: string

    ghost predicate Valid()
      reads this
    {
      && 0.0 <= healthValue <= 100.0 && fillWidth == healthValue && fillColour == Css(HealthBand(healthValue))
      && ammoText == AmmoText(currentAmmo, maxAmmo) && ammoColour == Css(AmmoBand(currentAmmo))
    }

    /** The field values and `createUI`'s styles: full green bar, white "30/30". */
    constructor ()
      ensures healthValue == 100.0 && maxAmmo == 30 && currentAmmo == 30
      ensures fillWidth == 100.0 && fillColour == "#00ff00"
      ensures ammoText == "30/30" && ammoColour == "#fff"
      ensures Valid()
    {
      healthValue := 100.0;
      maxAmmo := 30;
      currentAmmo := 30;
      fillWidth := 100.0;
      fillColour := "#00ff00";
      ammoText := AmmoText(30, 30);
      ammoColour := "#fff";
    }

    method UpdateHealth(health: real)
      modifies this`healthValue, this`fillWidth, this`fillColour
      ensures healthValue == ClampHealth(health)
      ensures fillWidth == healthValue
      ensures fillColour == Css(HealthBand(healthValue))
      ensures old(Valid()) ==> Valid()
    {
      healthValue := Clamp(0.0, 100.0, health);
      fillWidth := healthValue;
      if healthValue > 60.0 {
        fillColour := "#00ff00";
      } else if healthValue > 30.0 {
        fillColour := "#ffff00";
      } else {
        fillColour := "#ff0000";
      }
    }

    /** Stores both counts as given, with no clamping. */
    method UpdateAmmo(current: int, max: int)
      modifies this`currentAmmo, this`maxAmmo, this`ammoText, this`ammoColour
      ensures currentAmmo == current && maxAmmo == max
      ensures ammoText == AmmoText(current, max)
      ensures ammoColour == Css(AmmoBand(current))
      ensures old(Valid()) ==> Valid()
    {
      currentAmmo := current;
      maxAmmo := max;
      ammoText := IntText(currentAmmo) + "/" + IntText(maxAmmo);
      if currentAmmo == 0 {
        ammoColour := "#ff0000";
      } else if currentAmmo <= 5 {
        ammoColour := "#ffff00";
      } else {
        ammoColour := "#fff";
      }
    }
  }
}
