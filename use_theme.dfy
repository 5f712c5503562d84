/** The theme-selection hook: the current theme identifier, a mounted flag, the
    stored choice in a key/value store, and the effect that writes the palette
    onto the page's CSS custom properties and persists the choice. */
module UseTheme {
  import opened Wrappers
  import opened Themes

  /** The store key under which the choice is persisted. */
  const StorageKey: string := "drumming-shaman-theme"

  /** `getItem`: the stored value of a key, or nothing. */
  function GetItem(storage: map<string, string>, key: string): (r: Option<string>)
    ensures r.Some? <==> key in storage
    ensures r.Some? ==> r.value == storage[key]
  {
    if key in storage then Some(storage[key]) else None
  }

  // ---------------------------------------------------------------------------
  // Validating a stored value

  /** The property names every plain object inherits; indexing the registry
      record with one of them yields a function or object, which is truthy. */
  const ObjectPrototypeNames: set<string> := {
    "constructor", "toString", "toLocaleString", "valueOf", "hasOwnProperty",
    "isPrototypeOf", "propertyIsEnumerable", "__proto__", "__defineGetter__",
    "__defineSetter__", "__lookupGetter__", "__lookupSetter__"}

  /** The check as written, `stored && themes[stored]`: a non-empty string whose
      lookup in the registry record is truthy, inherited properties included. */
  predicate AdoptsAsWritten(stored: Option<string>): (r: bool)
    ensures stored.Some? && ParseId(stored.value).Some? ==> r
    ensures stored == None || stored == Some("") ==> !r
  {
    stored.Some? && stored.value != "" && (stored.value in IdNames || stored.value in ObjectPrototypeNames)
  }

  /** The as-written check adopts `"constructor"`, which names no theme: the state
      then holds a value the registry has no palette for. */
  lemma PrototypeNameAdopted()
    ensures AdoptsAsWritten(Some("constructor"))
    ensures ParseId("constructor") == None
  {
    assert "constructor" in ObjectPrototypeNames;
  }

  /** The stored value to adopt: only one of the registry's own keys. */
  function StoredTheme(stored: Option<string>): (r: Option<ThemeId>)
    ensures r.Some? <==> stored.Some? && stored.value in IdNames
    ensures r.Some? ==> IdName(r.value) == stored.value
  {
    if stored.Some? then ParseId(stored.value) else None
  }

  /** The corrected check adopts exactly what the written one adopts, less the
      inherited property names. */
  lemma StoredThemeRejectsPrototypeNames(stored: Option<string>)
    ensures StoredTheme(stored).Some? <==> AdoptsAsWritten(stored) && stored.value !in ObjectPrototypeNames
  {
    if stored.Some? && stored.value in IdNames {
      assert stored.value != "";
      assert stored.value !in ObjectPrototypeNames;
    }
  }

  /** The theme after the load effect: the stored one if valid, else unchanged. */
  function LoadedTheme(current: ThemeId, storage: map<string, string>): (r: ThemeId)
    ensures StoredTheme(GetItem(storage, StorageKey)).None? ==> r == current
    ensures StoredTheme(GetItem(storage, StorageKey)).Some? ==> IdName(r) == storage[StorageKey]
  {
    match StoredTheme(GetItem(storage, StorageKey))
    case None => current
    case Some(id) => id
  }

  /** Persisting a theme and loading it back restores that theme, whatever the
      state and the rest of the store. */
  lemma PersistThenLoad(current: ThemeId, storage: map<string, string>, id: ThemeId)
    ensures LoadedTheme(current, storage[StorageKey := IdName(id)]) == id
  {
    ParseIdName(id);
  }

  // ---------------------------------------------------------------------------
  // Cycling

  /** The order `cycleTheme` walks. */
  const CycleOrder: seq<ThemeId> := [Mystical, Earthy, Modern, Dark]

  /** The cycle order is the registry's order. */
  lemma CycleOrderIsThemeOrder()
    ensures CycleOrder == ThemeOrder
  {
  }

  /** `indexOf`: the first position holding `x`, or -1. */
  function IndexOf(s: seq<ThemeId>, x: ThemeId): (i: int)
    ensures -1 <= i < |s|
    ensures i >= 0 ==> s[i] == x && forall j :: 0 <= j < i ==> s[j] != x
    ensures i == -1 <==> x !in s
  {
    if s == [] then -1
    else if s[0] == x then 0
    else var k := IndexOf(s[1..], x); if k == -1 then -1 else k + 1
  }

  /** The identifier after `id` in the cycle, wrapping from the last to the first. */
  function NextTheme(id: ThemeId): (r: ThemeId)
    ensures OrderIndex(r) == (OrderIndex(id) + 1) % |ThemeOrder|
    ensures r == ThemeOrder[(OrderIndex(id) + 1) % |ThemeOrder|]
  {
    CycleIndex(id);
    CycleOrder[(IndexOf(CycleOrder, id) + 1) % |CycleOrder|]
  }

  /** Every identifier is found in the cycle order, at its registry position. */
  lemma CycleIndex(id: ThemeId)
    ensures IndexOf(CycleOrder, id) == OrderIndex(id)
  {
    match id
    case Mystical =>
    case Earthy =>
    case Modern =>
    case Dark =>
  }

  /** Four cycles return to the starting theme, and fewer never do. */
  lemma FourCyclesReturn(id: ThemeId)
    ensures NextTheme(NextTheme(NextTheme(NextTheme(id)))) == id
    ensures NextTheme(id) != id
    ensures NextTheme(NextTheme(id)) != id
    ensures NextTheme(NextTheme(NextTheme(id))) != id
  {
    NextThemes();
  }

  /** The cycle: mystical, earthy, modern, dark, and back to mystical. */
  lemma NextThemes()
    ensures NextTheme(Mystical) == Earthy && NextTheme(Earthy) == Modern
    ensures NextTheme(Modern) == Dark && NextTheme(Dark) == Mystical
  {
    NextByIndex(Mystical, Earthy);
    NextByIndex(Earthy, Modern);
    NextByIndex(Modern, Dark);
    NextByIndex(Dark, Mystical);
  }

  /** The theme whose position follows `id`'s is the next one. */
  lemma NextByIndex(id: ThemeId, next: ThemeId)
    requires OrderIndex(next) == (OrderIndex(id) + 1) % |ThemeOrder|
    ensures NextTheme(id) == next
  {
  }

  // ---------------------------------------------------------------------------
  // The hook's state

  /** The finite map that applying a list of properties one by one produces. */
  function EntriesMap(es: seq<(string, string)>): (m: map<string, string>)
    ensures forall k :: k in m <==> exists i :: 0 <= i < |es| && es[i].0 == k
  {
    if es == [] then map[]
    else
      var m := EntriesMap(es[..|es| - 1])[es[|es| - 1].0 := es[|es| - 1].1];
      assert forall i :: 0 <= i < |es| - 1 ==> es[..|es| - 1][i] == es[i];
      m
  }

  /** Setting the nine properties in order yields the `getCSSVariables` record. */
  lemma EntriesMapIsCssVariables(t: Theme)
    ensures EntriesMap(CssEntries(t)) == CssVariables(t)
  {
    var es := CssEntries(t);
    CssEntriesListRecord(t);
    CssVariablesNineKeys(t);
    forall k | k in CssVariables(t) ensures exists i :: 0 <= i < |es| && es[i].0 == k {
      var i :| 0 <= i < |CssKeys| && CssKeys[i] == k;
      assert es[i].0 == k;
    }
    EntriesMapIs(es, CssVariables(t));
  }

  /** Entries with distinct keys, listing exactly the pairs of `m`, apply to `m`. */
  lemma {:induction false} EntriesMapIs(es: seq<(string, string)>, m: map<string, string>)
    requires forall a, b :: 0 <= a < b < |es| ==> es[a].0 != es[b].0
    requires forall i :: 0 <= i < |es| ==> es[i].0 in m && m[es[i].0] == es[i].1
    requires forall k :: k in m ==> exists i :: 0 <= i < |es| && es[i].0 == k
    ensures EntriesMap(es) == m
  {
    var e := EntriesMap(es);
    EntriesMapWithin(es, m);
    EntriesMapCovers(es, m);
    assert e.Keys == m.Keys;
  }

  /** Every applied key is a key of `m`, with `m`'s value. */
  lemma {:induction false} EntriesMapWithin(es: seq<(string, string)>, m: map<string, string>)
    requires forall a, b :: 0 <= a < b < |es| ==> es[a].0 != es[b].0
    requires forall i :: 0 <= i < |es| ==> es[i].0 in m && m[es[i].0] == es[i].1
    ensures forall k :: k in EntriesMap(es) ==> k in m && EntriesMap(es)[k] == m[k]
  {
    var e := EntriesMap(es);
    forall k | k in e ensures k in m && e[k] == m[k] {
      var i :| 0 <= i < |es| && es[i].0 == k;
      EntriesMapLast(es, i);
    }
  }

  /** Every key of `m` that some entry names is applied. */
  lemma {:induction false} EntriesMapCovers(es: seq<(string, string)>, m: map<string, string>)
    requires forall k :: k in m ==> exists i :: 0 <= i < |es| && es[i].0 == k
    ensures forall k :: k in m ==> k in EntriesMap(es)
  {
    var e := EntriesMap(es);
    forall k | k in m ensures k in e {
      var i :| 0 <= i < |es| && es[i].0 == k;
      assert es[i].0 in e;
    }
  }

  /** With pairwise distinct keys, the map holds each entry's own value. */
  lemma {:induction false} EntriesMapLast(es: seq<(string, string)>, i: nat)
    requires i < |es|
    requires forall a, b :: 0 <= a < b < |es| ==> es[a].0 != es[b].0
    ensures es[i].0 in EntriesMap(es) && EntriesMap(es)[es[i].0] == es[i].1
  {
    if i < |es| - 1 {
      var p := es[..|es| - 1];
      assert p[i] == es[i];
      EntriesMapLast(p, i);
    }
  }

  /** Applying one more property to a store extends the applied prefix by it. */
  lemma EntriesMapStep(base: map<string, string>, es: seq<(string, string)>, i: nat)
    requires i < |es|
    ensures (base + EntriesMap(es[..i]))[es[i].0 := es[i].1] == base + EntriesMap(es[..i + 1])
  {
    assert es[..i + 1][..i] == es[..i];
    var m := EntriesMap(es[..i]);
    assert EntriesMap(es[..i + 1]) == m[es[i].0 := es[i].1];
    var lhs := (base + m)[es[i].0 := es[i].1];
    var rhs := base + m[es[i].0 := es[i].1];
    assert lhs.Keys == rhs.Keys;
    assert forall k :: k in lhs ==> lhs[k] == rhs[k];
  }

  /** The hook's state and the two pieces of the browser it writes to: the key/value
      store and the root element's style properties and `data-theme` attribute. */
  class ThemeState {
    var themeId: ThemeId
    var mounted: bool
    var storage: map<string, string>
    var style: map<string, string>
    var dataTheme: Option<string>

    /** The first render: the default theme, not yet mounted. */
    constructor (initialStorage: map<string, string>, initialStyle: map<string, string>)
      ensures themeId == DefaultTheme && !mounted
      ensures storage == initialStorage && style == initialStyle && dataTheme == None
    {
      themeId := DefaultTheme;
      mounted := false;
      storage := initialStorage;
      style := initialStyle;
      dataTheme := None;
    }

    /** The load effect: mark mounted and adopt a valid stored choice. */
    method LoadEffect()
      modifies this`mounted, this`themeId
      ensures mounted
      ensures themeId == LoadedTheme(old(themeId), storage)
    {
      mounted := true;
      var stored := GetItem(storage, StorageKey);
      var id := StoredTheme(stored);
      if id.Some? {
        themeId := id.value;
      }
    }

    /** The apply effect, run after every change of the theme or the mounted flag:
        once mounted, write the nine properties, the attribute and the stored choice. */
    method ApplyEffect()
      modifies this`style, this`dataTheme, this`storage
      ensures !mounted ==> style == old(style) && dataTheme == old(dataTheme) && storage == old(storage)
      ensures mounted ==>
        && style == old(style) + CssVariables(GetTheme(themeId))
        && dataTheme == Some(IdName(themeId))
        && storage == old(storage)[StorageKey := IdName(themeId)]
    {
      if !mounted {
        return;
      }
      var theme := GetTheme(themeId);
      var entries := CssEntries(theme);
      for i := 0 to |entries|
        invariant style == old(style) + EntriesMap(entries[..i])
        invariant storage == old(storage) && dataTheme == old(dataTheme)
      {
        EntriesMapStep(old(style), entries, i);
        style := style[entries[i].0 := entries[i].1];
      }
      assert entries[..|entries|] == entries;
      EntriesMapIsCssVariables(theme);
      dataTheme := Some(IdName(themeId));
      storage := storage[StorageKey := IdName(themeId)];
    }

    /** `setTheme`. */
    method SetTheme(id: ThemeId)
      modifies this`themeId
      ensures themeId == id
    {
      themeId := id;
    }

    /** `cycleTheme`: the next identifier in the cycle order. */
    method CycleTheme()
      modifies this`themeId
      ensures themeId == NextTheme(old(themeId))
    {
      var currentIndex := IndexOf(CycleOrder, themeId);
      var nextIndex := (currentIndex + 1) % |CycleOrder|;
      themeId := CycleOrder[nextIndex];
    }
  }
}
