/** The events section: the upcoming-events list, the date badge cut out of each
    event's date string, the colour of each event type, and the two styling
    rules of the event card. */
module Events {
  import opened Wrappers
  import opened Themes

  datatype Event = Event(
    id: nat,
    title: string,
    date: string,
    time: string,
    location: string,
    city: string,
    eventType: string,
    spotsLeft: int)

  const UpcomingEvents: seq<Event> := [
    Event(1, "Full Moon Healing Ceremony", "February 12, 2025", "7:00 PM",
          "The Healing Temple", "Santa Fe, NM", "Ceremony", 8),
    Event(2, "Shamanic Drumming Workshop", "February 22-23, 2025", "10:00 AM",
          "The Healing Vortex", "Sedona, AZ", "Workshop", 12),
    Event(3, "Sound Journey & Drum Circle", "March 1, 2025", "6:30 PM",
          "Community Center", "Los Angeles, CA", "Circle", 25)
  ]

  // ---------------------------------------------------------------------------
  // String operations

  /** The position of the first `c` in `s`, if any. */
  function FindChar(s: string, c: char): (r: Option<nat>)
    ensures r.None? <==> c !in s
    ensures r.Some? ==> r.value < |s| && s[r.value] == c && c !in s[..r.value]
  {
    if s == [] then None
    else if s[0] == c then Some(0)
    else match FindChar(s[1..], c)
      case None => None
      case Some(i) =>
        assert s[..i + 1] == [s[0]] + s[1..][..i];
        Some(i + 1)
  }

  /** `split(sep)`: the pieces between separators, empty pieces kept, so there is
      always one more piece than there are separators. */
  function Split(s: string, sep: char): (parts: seq<string>)
    ensures |parts| >= 1
    ensures forall i :: 0 <= i < |parts| ==> sep !in parts[i]
    ensures |parts| > 1 <==> sep in s
    ensures |parts[0]| <= |s| && parts[0] == s[..|parts[0]|]
    decreases |s|
  {
    match FindChar(s, sep)
    case None => [s]
    case Some(i) => [s[..i]] + Split(s[i + 1..], sep)
  }

  /** `join(sep)`. */
  function Join(parts: seq<string>, sep: char): string
    requires |parts| >= 1
  {
    if |parts| == 1 then parts[0] else parts[0] + [sep] + Join(parts[1..], sep)
  }

  /** Splitting and joining back with the same separator gives the string back. */
  lemma {:induction false} SplitJoin(s: string, sep: char)
    ensures Join(Split(s, sep), sep) == s
    decreases |s|
  {
    match FindChar(s, sep)
    case None =>
    case Some(i) =>
      var rest := s[i + 1..];
      SplitJoin(rest, sep);
      JoinCons(s[..i], Split(rest, sep), sep);
      assert s == s[..i] + [sep] + rest;
  }

  lemma JoinCons(x: string, rest: seq<string>, sep: char)
    requires |rest| >= 1
    ensures Join([x] + rest, sep) == x + [sep] + Join(rest, sep)
  {
    assert ([x] + rest)[1..] == rest;
  }

  /** The first separator after a separator-free prefix is the one that follows it. */
  lemma FindCharAfter(a: string, b: string, sep: char)
    requires sep !in a
    ensures FindChar(a + [sep] + b, sep) == Some(|a|)
  {
    var s := a + [sep] + b;
    assert s[|a|] == sep;
    assert s[..|a|] == a;
  }

  /** Splitting at the first separator: the prefix, then the pieces of the rest. */
  lemma SplitFirstSeparator(a: string, b: string, sep: char)
    requires FindChar(a + [sep] + b, sep) == Some(|a|)
    ensures Split(a + [sep] + b, sep) == [a] + Split(b, sep)
  {
    var s := a + [sep] + b;
    assert s[..|a|] == a;
    assert s[|a| + 1..] == b;
  }

  /** Pieces without the separator are recovered by splitting their join. */
  lemma {:induction false} JoinSplit(parts: seq<string>, sep: char)
    requires |parts| >= 1
    requires forall i :: 0 <= i < |parts| ==> sep !in parts[i]
    ensures Split(Join(parts, sep), sep) == parts
  {
    if |parts| > 1 {
      var j := Join(parts[1..], sep);
      JoinSplit(parts[1..], sep);
      FindCharAfter(parts[0], j, sep);
      SplitFirstSeparator(parts[0], j, sep);
      assert [parts[0]] + parts[1..] == parts;
    } else {
      assert sep !in parts[0];
    }
  }

  /** `slice(0, n)`: the first `n` characters, or all of a shorter string. */
  function Take(s: string, n: nat): (r: string)
    ensures |r| == if |s| < n then |s| else n
    ensures r == s[..|r|]
  {
    if |s| < n then s else s[..n]
  }

  /** `replace(c, "")` with a one-character pattern: drop the first `c`, if any. */
  function RemoveFirst(s: string, c: char): (r: string)
    ensures c !in s ==> r == s
    ensures c in s ==> |r| == |s| - 1
    ensures c in s ==> exists i :: 0 <= i < |s| && s[i] == c && c !in s[..i] && r == s[..i] + s[i + 1..]
  {
    match FindChar(s, c)
    case None => s
    case Some(i) => s[..i] + s[i + 1..]
  }

  /** Removing the first `c` and putting it back where it was restores the string. */
  lemma RemoveFirstReinsert(s: string, c: char, i: nat)
    requires FindChar(s, c) == Some(i)
    ensures RemoveFirst(s, c)[..i] + [c] + RemoveFirst(s, c)[i..] == s
  {
    var r := s[..i] + s[i + 1..];
    assert RemoveFirst(s, c) == r;
    assert r[..i] == s[..i];
    assert r[i..] == s[i + 1..];
    assert s == s[..i] + [c] + s[i + 1..];
  }

  // ---------------------------------------------------------------------------
  // The date badge

  /** The month badge: the first three characters of the first word. */
  function MonthBadge(date: string): (r: string)
    ensures |r| <= 3 && ' ' !in r
    ensures |r| <= |date| && r == date[..|r|]
    ensures ' ' !in date ==> r == Take(date, 3)
    ensures ' ' in date ==> r == Take(date[..FindChar(date, ' ').value], 3)
  {
    Take(Split(date, ' ')[0], 3)
  }

  /** The day badge: the second word with its first comma removed. A date with no
      space has no second word, and the expression then throws: `None`. */
  function DayBadge(date: string): (r: Option<string>)
    ensures r.None? <==> ' ' !in date
    ensures r.Some? ==> ' ' !in r.value
  {
    var parts := Split(date, ' ');
    if |parts| < 2 then None
    else Some(RemoveFirst(parts[1], ','))
  }

  /** For a date written as three space-separated words, the badges are the first
      three letters of the first word and the second word less its first comma. */
  lemma DateBadges(month: string, day: string, year: string)
    requires ' ' !in month && ' ' !in day && ' ' !in year
    ensures MonthBadge(month + [' '] + day + [' '] + year) == Take(month, 3)
    ensures DayBadge(month + [' '] + day + [' '] + year) == Some(RemoveFirst(day, ','))
  {
    var parts := [month, day, year];
    var date := month + [' '] + day + [' '] + year;
    assert Join(parts, ' ') == date by {
      JoinCons(day, [year], ' ');
      JoinCons(month, [day, year], ' ');
      assert [month] + [day, year] == parts;
      assert [day] + [year] == [day, year];
    }
    JoinSplit(parts, ' ');
    BadgesOfPieces(date, month, day, year);
  }

  /** The badges read off the first two pieces of the split date. */
  lemma BadgesOfPieces(date: string, month: string, day: string, year: string)
    requires Split(date, ' ') == [month, day, year]
    ensures MonthBadge(date) == Take(month, 3)
    ensures DayBadge(date) == Some(RemoveFirst(day, ','))
  {
  }

  /** The badges of the three upcoming events. */
  lemma EventBadges()
    ensures MonthBadge(UpcomingEvents[0].date) == "Feb" && DayBadge(UpcomingEvents[0].date) == Some("12")
    ensures MonthBadge(UpcomingEvents[1].date) == "Feb" && DayBadge(UpcomingEvents[1].date) == Some("22-23")
    ensures MonthBadge(UpcomingEvents[2].date) == "Mar" && DayBadge(UpcomingEvents[2].date) == Some("1")
  {
    FirstEventBadges(UpcomingEvents[0].date);
    SecondEventBadges(UpcomingEvents[1].date);
    ThirdEventBadges(UpcomingEvents[2].date);
  }

  lemma FirstEventBadges(date: string)
    requires date == UpcomingEvents[0].date
    ensures MonthBadge(date) == "Feb" && DayBadge(date) == Some("12")
  {
    assert date == "February" + " " + "12" + ", " + "2025" by {}
    assert ' ' !in "February" && ' ' !in "12" && ' ' !in "2025" && ',' !in "12" by {}
    assert Take("February", 3) == "Feb" by {}
    BadgesOf("February", "12", "2025");
  }

  lemma SecondEventBadges(date: string)
    requires date == UpcomingEvents[1].date
    ensures MonthBadge(date) == "Feb" && DayBadge(date) == Some("22-23")
  {
    assert date == "February" + " " + "22-23" + ", " + "2025" by {}
    assert ' ' !in "February" && ' ' !in "22-23" && ' ' !in "2025" && ',' !in "22-23" by {}
    assert Take("February", 3) == "Feb" by {}
    BadgesOf("February", "22-23", "2025");
  }

  lemma ThirdEventBadges(date: string)
    requires date == UpcomingEvents[2].date
    ensures MonthBadge(date) == "Mar" && DayBadge(date) == Some("1")
  {
    assert date == "March" + " " + "1" + ", " + "2025" by {}
    assert ' ' !in "March" && ' ' !in "1" && ' ' !in "2025" && ',' !in "1" by {}
    assert Take("March", 3) == "Mar" by {}
    BadgesOf("March", "1", "2025");
  }

  /** A date `month day, year` of space- and comma-free words shows `day` and the
      month's first three letters. */
  lemma BadgesOf(month: string, day: string, year: string)
    requires ' ' !in month && ' ' !in day && ' ' !in year && ',' !in day
    ensures MonthBadge(month + " " + day + ", " + year) == Take(month, 3)
    ensures DayBadge(month + " " + day + ", " + year) == Some(day)
  {
    var d := day + [','];
    assert ' ' !in d;
    assert month + " " + day + ", " + year == month + [' '] + d + [' '] + year;
    DateBadges(month, d, year);
    assert FindChar(d, ',') == Some(|day|) by {
      assert d[..|day|] == day;
    }
    assert d[..|day|] == day;
    assert d[|day| + 1..] == [];
    assert RemoveFirst(d, ',') == day;
    assert DayBadge(month + [' '] + d + [' '] + year) == Some(day);
  }

  // ---------------------------------------------------------------------------
  // Card styling

  /** `getTypeColor`: ceremonies in the primary colour, workshops in the secondary,
      circles in the accent, anything else in the primary. */
  function TypeColor(c: Colors, eventType: string): (r: string)
    ensures r == c.primary || r == c.secondary || r == c.accent
    ensures eventType == "Workshop" ==> r == c.secondary
    ensures eventType == "Circle" ==> r == c.accent
    ensures eventType != "Workshop" && eventType != "Circle" ==> r == c.primary
  {
    match eventType
    case "Ceremony" => c.primary
    case "Workshop" => c.secondary
    case "Circle" => c.accent
    case _ => c.primary
  }

  /** The text colour of the spots label: the accent while fewer than ten spots
      are left, the muted text variable otherwise. */
  function SpotsColor(c: Colors, spotsLeft: int): (r: string)
    ensures spotsLeft < 10 ==> r == c.accent
    ensures spotsLeft >= 10 ==> r == "var(--color-text-muted)"
  {
    if spotsLeft < 10 then c.accent else "var(--color-text-muted)"
  }

  /** For every registry palette, the label takes the accent colour exactly when
      fewer than ten spots are left. */
  lemma SpotsHighlightIffLow(id: ThemeId, spotsLeft: int)
    ensures SpotsColor(GetTheme(id).colors, spotsLeft) == GetTheme(id).colors.accent <==> spotsLeft < 10
  {
    PalettesAreHex(id);
    assert "var(--color-text-muted)"[0] == 'v';
  }

  /** The reserve button's text colour: white on the modern theme, the text
      variable otherwise. */
  function ReserveTextColor(themeId: string): (r: string)
    ensures r == "#fff" <==> themeId == "modern"
  {
    if themeId == "modern" then "#fff" else "var(--color-text)"
  }

  /** Of the upcoming events only the first, with eight spots, is highlighted, and
      each type reads its own slot of the palette. */
  lemma UpcomingEventStyles(c: Colors)
    ensures SpotsColor(c, UpcomingEvents[0].spotsLeft) == c.accent
    ensures SpotsColor(c, UpcomingEvents[1].spotsLeft) == "var(--color-text-muted)"
    ensures SpotsColor(c, UpcomingEvents[2].spotsLeft) == "var(--color-text-muted)"
    ensures TypeColor(c, UpcomingEvents[0].eventType) == c.primary
    ensures TypeColor(c, UpcomingEvents[1].eventType) == c.secondary
    ensures TypeColor(c, UpcomingEvents[2].eventType) == c.accent
  {
  }
}
