/** The pure parts of the particle background: the hexadecimal colour parser
    used to tint particles, and the per-theme particle configuration. */
module ParticleField {
  import opened Wrappers
  import opened Themes

  /** An 8-bit colour channel. */
  type Byte = x: int | 0 <= x < 256

  datatype Rgb = Rgb(r: Byte, g: Byte, b: Byte)

  /** The colour used when a string is not a hexadecimal colour. */
  const White: Rgb := Rgb(255, 255, 255)

  /** The value of one hexadecimal digit. */
  function HexValue(c: char): (v: nat)
    requires IsHexDigit(c)
    ensures v < 16
  {
    if '0' <= c <= '9' then (c as int) - ('0' as int)
    else if 'a' <= c <= 'f' then (c as int) - ('a' as int) + 10
    else (c as int) - ('A' as int) + 10
  }

  /** The lower-case digit of a value below sixteen. */
  function HexDigit(v: nat): (c: char)
    requires v < 16
    ensures IsHexDigit(c) && HexValue(c) == v
    ensures !('A' <= c <= 'Z')
  {
    if v < 10 then ((v + '0' as int) as char) else ((v - 10 + 'a' as int) as char)
  }

  predicate AllHex(s: string)
  {
    forall i :: 0 <= i < |s| ==> IsHexDigit(s[i])
  }

  /** The regular expression `^#?([a-f\d]{2})([a-f\d]{2})([a-f\d]{2})$` with the
      case-insensitive flag: an optional `#` and exactly six hexadecimal digits.
      On a match, the six digits. */
  function MatchHex(s: string): (m: Option<string>)
    ensures m.Some? <==> (|s| == 6 && AllHex(s)) || (|s| == 7 && s[0] == '#' && AllHex(s[1..]))
    ensures m.Some? ==> |m.value| == 6 && AllHex(m.value) && s == (if |s| == 7 then "#" else "") + m.value
  {
    if |s| == 6 && AllHex(s) then Some(s)
    else if |s| == 7 && s[0] == '#' && AllHex(s[1..]) then Some(s[1..])
    else None
  }

  /** `parseInt` of two hexadecimal digits in base 16. */
  function ParsePair(hi: char, lo: char): (v: Byte)
    requires IsHexDigit(hi) && IsHexDigit(lo)
    ensures v / 16 == HexValue(hi) && v % 16 == HexValue(lo)
  {
    16 * HexValue(hi) + HexValue(lo)
  }

  /** `hexToRgb`: the three channels a hexadecimal colour spells, or white. */
  function HexToRgb(s: string): (c: Rgb)
    ensures MatchHex(s).None? ==> c == White
    ensures MatchHex(s).Some? ==> FormatHex(c) == "#" + LowerAscii(MatchHex(s).value)
  {
    match MatchHex(s)
    case None => White
    case Some(d) =>
      FormatParsedDigits(d);
      Rgb(ParsePair(d[0], d[1]), ParsePair(d[2], d[3]), ParsePair(d[4], d[5]))
  }

  /** Writing back the channels parsed from six digits gives those digits in lower case. */
  lemma FormatParsedDigits(d: string)
    requires |d| == 6 && AllHex(d)
    ensures FormatHex(Rgb(ParsePair(d[0], d[1]), ParsePair(d[2], d[3]), ParsePair(d[4], d[5])))
            == "#" + LowerAscii(d)
  {
    var c := Rgb(ParsePair(d[0], d[1]), ParsePair(d[2], d[3]), ParsePair(d[4], d[5]));
    var f := FormatHex(c);
    var l := "#" + LowerAscii(d);
    forall i | 0 <= i < 6 ensures LowerChar(d[i]) == HexDigit(HexValue(d[i])) {
      LowerHexDigit(d[i]);
    }
    assert HexPair(c.r) == [l[1], l[2]];
    assert HexPair(c.g) == [l[3], l[4]];
    assert HexPair(c.b) == [l[5], l[6]];
    assert f == l;
  }

  /** ASCII lower-casing of one character. */
  function LowerChar(c: char): char
  {
    if 'A' <= c <= 'Z' then ((c as int) - ('A' as int) + ('a' as int)) as char else c
  }

  function LowerAscii(s: string): (r: string)
    ensures |r| == |s| && forall i :: 0 <= i < |s| ==> r[i] == LowerChar(s[i])
  {
    seq(|s|, i requires 0 <= i < |s| => LowerChar(s[i]))
  }

  /** A hexadecimal digit lower-cases to the lower-case digit of the same value. */
  lemma LowerHexDigit(c: char)
    requires IsHexDigit(c)
    ensures IsHexDigit(LowerChar(c)) && HexValue(LowerChar(c)) == HexValue(c)
    ensures LowerChar(c) == HexDigit(HexValue(c))
  {
  }

  /** The two lower-case hexadecimal digits of a byte. */
  function HexPair(v: Byte): (p: string)
    ensures |p| == 2 && AllHex(p) && ParsePair(p[0], p[1]) == v
  {
    [HexDigit(v / 16), HexDigit(v % 16)]
  }

  /** A colour written as `#rrggbb` in lower case. */
  function FormatHex(c: Rgb): (s: string)
    ensures |s| == 7 && IsHexColor(s)
  {
    "#" + HexPair(c.r) + HexPair(c.g) + HexPair(c.b)
  }

  /** Parsing a formatted colour gives the colour back. */
  lemma HexRoundTrip(c: Rgb)
    ensures HexToRgb(FormatHex(c)) == c
  {
    var s := FormatHex(c);
    assert AllHex(s[1..]);
    assert MatchHex(s) == Some(s[1..]);
    var d := s[1..];
    assert d == HexPair(c.r) + HexPair(c.g) + HexPair(c.b);
  }

  /** The regular expression accepts every `#rrggbb` colour, so no palette colour
      falls back to white. */
  lemma HexColorMatches(s: string)
    requires IsHexColor(s)
    ensures MatchHex(s).Some?
  {
    assert AllHex(s[1..]);
  }

  /** The `#` is optional: six characters parse the same with or without it. */
  lemma HashIsOptional(s: string)
    requires |s| == 6
    ensures HexToRgb("#" + s) == HexToRgb(s)
  {
    assert ("#" + s)[1..] == s;
  }

  /** Letter case does not matter. */
  lemma CaseInsensitive(s: string)
    ensures HexToRgb(LowerAscii(s)) == HexToRgb(s)
  {
    var l := LowerAscii(s);
    forall i | 0 <= i < |s| ensures IsHexDigit(l[i]) <==> IsHexDigit(s[i]) {
      if IsHexDigit(s[i]) { LowerHexDigit(s[i]); }
    }
    assert AllHex(l) <==> AllHex(s);
    if |s| == 7 {
      assert AllHex(l[1..]) <==> AllHex(s[1..]) by {
        forall i | 0 <= i < 6 ensures l[1..][i] == LowerChar(s[1..][i]) { }
      }
    }
    match MatchHex(s)
    case None =>
    case Some(d) =>
      var ld := MatchHex(l).value;
      assert ld == LowerAscii(d);
      forall i | 0 <= i < 6 ensures HexValue(ld[i]) == HexValue(d[i]) {
        LowerHexDigit(d[i]);
      }
  }

  /** Mixed case without `#` and lower case with `#` name the same colour. */
  lemma MixedCaseExample()
    ensures HexToRgb("AbCdEf") == HexToRgb("#abcdef") == Rgb(171, 205, 239)
  {
    assert MatchHex("AbCdEf") == Some("AbCdEf");
    assert MatchHex("#abcdef") == Some("abcdef");
  }

  /** The particle settings of a theme: how many particles, their size range,
      their speed, and whether they glow. */
  datatype Config = Config(count: nat, sizeMin: int, sizeMax: int, speed: real, glow: bool)

  /** `particleConfig`: the switch on the theme identifier, with its default arm. */
  function ParticleConfig(themeId: string): (c: Config)
    ensures c.count > 0 && c.sizeMin <= c.sizeMax
    ensures c.glow <==> themeId != "earthy" && themeId != "modern"
  {
    if themeId == "mystical" then Config(80, 1, 4, 0.3, true)
    else if themeId == "earthy" then Config(40, 2, 6, 0.2, false)
    else if themeId == "modern" then Config(30, 1, 2, 0.15, false)
    else if themeId == "dark" then Config(60, 1, 5, 0.4, true)
    else Config(50, 1, 3, 0.3, true)
  }

  /** Connection lines between particles are drawn for the mystical and dark themes only. */
  predicate DrawsConnections(themeId: string)
  {
    themeId == "mystical" || themeId == "dark"
  }

  /** Glow is on exactly for mystical and dark among the four themes, and every
      theme that draws connections also glows. */
  lemma GlowingThemes(id: ThemeId)
    ensures ParticleConfig(IdName(id)).glow <==> id == Mystical || id == Dark
    ensures DrawsConnections(IdName(id)) ==> ParticleConfig(IdName(id)).glow
  {
  }

  /** Each theme's particles are tinted with its primary and secondary colours
      exactly as written, never with the white fallback. */
  lemma ThemeTintsParse(id: ThemeId)
    ensures MatchHex(GetTheme(id).colors.primary).Some?
    ensures MatchHex(GetTheme(id).colors.secondary).Some?
  {
    PalettesAreHex(id);
    HexColorMatches(GetTheme(id).colors.primary);
    HexColorMatches(GetTheme(id).colors.secondary);
  }
}
