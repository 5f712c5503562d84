/** The theme registry: four named palettes, their cycle order, the default,
    and the projection of a palette onto the page's CSS custom properties. */
module Themes {
  import opened Wrappers

  /** The four theme identifiers. */
  datatype ThemeId = Mystical | Earthy | Modern | Dark

  /** The nine colour slots of a palette. */
  datatype Colors = Colors(
    primary: string,
    secondary: string,
    accent: string,
    background: string,
    backgroundAlt: string,
    surface: string,
    text: string,
    textMuted: string,
    glow: string)

  datatype Theme = Theme(id: ThemeId, name: string, description: string, icon: string, colors: Colors)

  /** The string an identifier is written as: its key in the registry record. */
  function IdName(id: ThemeId): string
  {
    match id
    case Mystical => "mystical"
    case Earthy => "earthy"
    case Modern => "modern"
    case Dark => "dark"
  }

  /** The four key strings of the registry. */
  const IdNames: set<string> := {"mystical", "earthy", "modern", "dark"}

  /** The identifier a string names, if it is one of the four keys. */
  function ParseId(s: string): (r: Option<ThemeId>)
    ensures r.Some? <==> s in IdNames
    ensures r.Some? ==> IdName(r.value) == s
  {
    if s == "mystical" then Some(Mystical)
    else if s == "earthy" then Some(Earthy)
    else if s == "modern" then Some(Modern)
    else if s == "dark" then Some(Dark)
    else None
  }

  /** Parsing recovers every identifier from its key string. */
  lemma ParseIdName(id: ThemeId)
    ensures IdName(id) in IdNames
    ensures ParseId(IdName(id)) == Some(id)
  {
  }

  /** The four palettes of the registry record `themes`. */
  const MysticalTheme := Theme(Mystical, "Mystical", "Ethereal cosmic journey", "\U{1F30C}",
    Colors("#7c3aed", "#c084fc", "#fbbf24", "#0f0a1a", "#1a1025", "#251a35", "#f5f3ff", "#a78bfa", "#8b5cf6"))
  const EarthyTheme := Theme(Earthy, "Earthy", "Grounded natural spirit", "\U{1F33F}",
    Colors("#b45309", "#22c55e", "#d4a574", "#1a1512", "#251f1a", "#2d2620", "#fef3c7", "#a3a38a", "#84cc16"))
  const ModernTheme := Theme(Modern, "Modern", "Clean spiritual minimalism", "\U{2728}",
    Colors("#18181b", "#71717a", "#d4af37", "#fafafa", "#f4f4f5", "#ffffff", "#18181b", "#71717a", "#d4af37"))
  const DarkTheme := Theme(Dark, "Immersive", "Fire and shadow", "\U{1F525}",
    Colors("#ea580c", "#dc2626", "#fbbf24", "#030303", "#0a0a0a", "#171717", "#fef2f2", "#a8a29e", "#f97316"))

  /** The registry record `themes`, keyed by identifier. */
  const ThemeTable: map<ThemeId, Theme> :=
    map[Mystical := MysticalTheme, Earthy := EarthyTheme, Modern := ModernTheme, Dark := DarkTheme]

  /** The order in which themes are cycled. */
  const ThemeOrder: seq<ThemeId> := [Mystical, Earthy, Modern, Dark]

  /** The theme used before any stored choice is read. */
  const DefaultTheme: ThemeId := Mystical

  /** `getTheme`: the registry entry of an identifier; it carries that identifier. */
  function GetTheme(id: ThemeId): (t: Theme)
    ensures id in ThemeTable && t == ThemeTable[id]
    ensures t.id == id
  {
    match id
    case Mystical => MysticalTheme
    case Earthy => EarthyTheme
    case Modern => ModernTheme
    case Dark => DarkTheme
  }

  /** The position of an identifier in the cycle order (`indexOf`). */
  function OrderIndex(id: ThemeId): (i: nat)
    ensures i < |ThemeOrder| && ThemeOrder[i] == id
  {
    match id
    case Mystical => 0
    case Earthy => 1
    case Modern => 2
    case Dark => 3
  }

  /** The registry is keyed by every identifier, each entry carries its own key,
      the cycle order lists every identifier exactly once, and the default is a key. */
  lemma RegistryWellFormed()
    ensures forall id: ThemeId :: id in ThemeTable && ThemeTable[id].id == id
    ensures |ThemeOrder| == 4
    ensures forall id: ThemeId :: id in ThemeOrder
    ensures forall i, j :: 0 <= i < j < |ThemeOrder| ==> ThemeOrder[i] != ThemeOrder[j]
    ensures DefaultTheme in ThemeTable
  {
    forall id: ThemeId ensures id in ThemeOrder && id in ThemeTable && ThemeTable[id].id == id {
      assert ThemeOrder[OrderIndex(id)] == id;
      match id
      case Mystical =>
      case Earthy =>
      case Modern =>
      case Dark =>
    }
  }

  /** The CSS custom properties of a theme, in the order the record lists them. */
  function CssEntries(t: Theme): seq<(string, string)>
  {
    [ ("--color-primary", t.colors.primary),
      ("--color-secondary", t.colors.secondary),
      ("--color-accent", t.colors.accent),
      ("--color-background", t.colors.background),
      ("--color-background-alt", t.colors.backgroundAlt),
      ("--color-surface", t.colors.surface),
      ("--color-text", t.colors.text),
      ("--color-text-muted", t.colors.textMuted),
      ("--color-glow", t.colors.glow) ]
  }

  /** The nine property names, in order. */
  const CssKeys: seq<string> := [
    "--color-primary", "--color-secondary", "--color-accent", "--color-background",
    "--color-background-alt", "--color-surface", "--color-text", "--color-text-muted", "--color-glow"]

  /** The colour stored under each property name: the inverse reading of `CssEntries`. */
  function ColorOf(c: Colors, key: string): Option<string>
  {
    if key == "--color-primary" then Some(c.primary)
    else if key == "--color-secondary" then Some(c.secondary)
    else if key == "--color-accent" then Some(c.accent)
    else if key == "--color-background" then Some(c.background)
    else if key == "--color-background-alt" then Some(c.backgroundAlt)
    else if key == "--color-surface" then Some(c.surface)
    else if key == "--color-text" then Some(c.text)
    else if key == "--color-text-muted" then Some(c.textMuted)
    else if key == "--color-glow" then Some(c.glow)
    else None
  }

  /** The record `getCSSVariables` returns, keyed by property name. */
  function CssVariables(t: Theme): (m: map<string, string>)
    ensures forall i :: 0 <= i < |CssKeys| ==> CssKeys[i] in m
    ensures forall k :: k in m ==> ColorOf(t.colors, k) == Some(m[k])
  {
    map[
      "--color-primary" := t.colors.primary,
      "--color-secondary" := t.colors.secondary,
      "--color-accent" := t.colors.accent,
      "--color-background" := t.colors.background,
      "--color-background-alt" := t.colors.backgroundAlt,
      "--color-surface" := t.colors.surface,
      "--color-text" := t.colors.text,
      "--color-text-muted" := t.colors.textMuted,
      "--color-glow" := t.colors.glow]
  }

  /** `getCSSVariables` has exactly nine keys, and each maps to the colour field
      of the same name. */
  lemma CssVariablesProjection(t: Theme)
    ensures forall k :: k in CssVariables(t) <==> ColorOf(t.colors, k).Some?
    ensures forall k :: k in CssVariables(t) ==> CssVariables(t)[k] == ColorOf(t.colors, k).value
  {
  }

  /** The record has exactly nine keys: the nine property names. */
  lemma CssVariablesNineKeys(t: Theme)
    ensures CssVariables(t).Keys == set k | k in CssKeys
    ensures |CssVariables(t)| == 9
  {
    CssEntriesListRecord(t);
    DistinctSeqCard(CssKeys);
    assert CssVariables(t).Keys == set k | k in CssKeys;
  }

  /** The entries are the record's pairs, listed once each in key order, so applying
      them one by one yields exactly the record. */
  lemma CssEntriesListRecord(t: Theme)
    ensures |CssEntries(t)| == |CssKeys| == 9
    ensures forall i :: 0 <= i < 9 ==> CssEntries(t)[i].0 == CssKeys[i]
    ensures forall i, j :: 0 <= i < j < 9 ==> CssKeys[i] != CssKeys[j]
    ensures forall i :: 0 <= i < 9 ==> CssEntries(t)[i].0 in CssVariables(t) && CssVariables(t)[CssEntries(t)[i].0] == CssEntries(t)[i].1
  {
  }

  /** A sequence without repetitions has as many elements as its set. */
  lemma {:induction false} DistinctSeqCard(s: seq<string>)
    requires forall i, j :: 0 <= i < j < |s| ==> s[i] != s[j]
    ensures |set k | k in s| == |s|
  {
    if s != [] {
      DistinctSeqCard(s[1..]);
      assert (set k | k in s) == (set k | k in s[1..]) + {s[0]};
      assert s[0] !in s[1..];
    }
  }

  /** An ASCII hexadecimal digit, either case. */
  predicate IsHexDigit(c: char)
  {
    '0' <= c <= '9' || 'a' <= c <= 'f' || 'A' <= c <= 'F'
  }

  /** A `#` followed by exactly six hexadecimal digits. */
  predicate IsHexColor(s: string)
  {
    && |s| == 7 && s[0] == '#'
    && IsHexDigit(s[1]) && IsHexDigit(s[2]) && IsHexDigit(s[3])
    && IsHexDigit(s[4]) && IsHexDigit(s[5]) && IsHexDigit(s[6])
  }

  predicate PaletteIsHex(c: Colors)
  {
    && IsHexColor(c.primary) && IsHexColor(c.secondary) && IsHexColor(c.accent)
    && IsHexColor(c.background) && IsHexColor(c.backgroundAlt) && IsHexColor(c.surface)
    && IsHexColor(c.text) && IsHexColor(c.textMuted) && IsHexColor(c.glow)
  }

  /** Every colour of every palette is a `#` and six hexadecimal digits. */
  lemma PalettesAreHex(id: ThemeId)
    ensures PaletteIsHex(GetTheme(id).colors)
  {
    match id
    case Mystical => MysticalIsHex();
    case Earthy => EarthyIsHex();
    case Modern => ModernIsHex();
    case Dark => DarkIsHex();
  }

  lemma MysticalIsHex() ensures PaletteIsHex(MysticalTheme.colors) {}
  lemma EarthyIsHex() ensures PaletteIsHex(EarthyTheme.colors) {}
  lemma ModernIsHex() ensures PaletteIsHex(ModernTheme.colors) {}
  lemma DarkIsHex() ensures PaletteIsHex(DarkTheme.colors) {}
}
