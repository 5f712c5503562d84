/** The venues page: the table of past venues and the category filter the
    page's tabs select. */
module Venues {
  /** The filter tabs; `All` is a tab, not a category any venue has. */
  datatype Category = All | Festivals | Corporate | Retreats | Private | International

  datatype Venue = Venue(id: string, name: string, category: Category)

  const VenueTable: seq<Venue> := [
    Venue("burning-man", "Burning Man", Festivals),
    Venue("lightning-bottle", "Lightning in a Bottle", Festivals),
    Venue("envision", "Envision Festival", Festivals),
    Venue("bali-spirit", "Bali Spirit Festival", Festivals),
    Venue("google", "Google Wellness Summit", Corporate),
    Venue("salesforce", "Salesforce Dreamforce", Corporate),
    Venue("meta-wellness", "Meta Wellness Week", Corporate),
    Venue("esalen", "Esalen Institute", Retreats),
    Venue("rythmia", "Rythmia Life Advancement", Retreats),
    Venue("kripalu", "Kripalu Center", Retreats),
    Venue("omega", "Omega Institute", Retreats),
    Venue("celebrity-wedding", "Private Celebration", Private),
    Venue("yacht-ceremony", "Ocean Ceremony", Private),
    Venue("india-pilgrimage", "Rishikesh Retreat", International),
    Venue("peru-machu", "Machu Picchu Ceremony", International),
    Venue("japan-temple", "Kyoto Temple Sessions", International),
    Venue("morocco", "Sahara Desert Gathering", International)
  ]

  /** The tabs, in the order the page shows them. */
  const Tabs: seq<Category> := [All, Festivals, Corporate, Retreats, Private, International]

  /** `a` is `b` with some elements left out and the rest in their order. */
  predicate IsSubsequence(a: seq<Venue>, b: seq<Venue>)
  {
    if a == [] then true
    else if b == [] then false
    else if a[0] == b[0] then IsSubsequence(a[1..], b[1..])
    else IsSubsequence(a, b[1..])
  }

  /** `filter((v) => v.category === c)`. */
  function Filter(vs: seq<Venue>, c: Category): (r: seq<Venue>)
    ensures |r| <= |vs|
    ensures IsSubsequence(r, vs)
    ensures forall v :: v in r <==> v in vs && v.category == c
    ensures forall v :: multiset(r)[v] == if v.category == c then multiset(vs)[v] else 0
  {
    if vs == [] then []
    else
      var rest := Filter(vs[1..], c);
      if vs[0].category == c then
        assert ([vs[0]] + rest)[1..] == rest;
        assert vs == [vs[0]] + vs[1..];
        [vs[0]] + rest
      else
        assert rest != [] ==> rest[0] != vs[0] by {
          if rest != [] { assert rest[0] in rest; }
        }
        assert vs == [vs[0]] + vs[1..];
        rest
  }

  /** `filteredVenues` over the table `venues`: the whole table on the `All` tab, else
      the venues of the tab's category in table order. */
  function FilteredVenues(venues: seq<Venue>, active: Category): (r: seq<Venue>)
    ensures active == All ==> r == venues
    ensures active != All ==> IsSubsequence(r, venues)
    ensures active != All ==> forall v :: v in r <==> v in venues && v.category == active
    ensures active != All ==> forall v :: multiset(r)[v] == if v.category == active then multiset(venues)[v] else 0
  {
    if active == All then venues else Filter(venues, active)
  }

  /** The empty-state message is shown when the filtered list is empty: on the `All`
      tab for an empty table, on another tab when no venue has its category. */
  predicate ShowsEmptyState(venues: seq<Venue>, active: Category): (r: bool)
    ensures active == All ==> (r <==> venues == [])
    ensures active != All ==> (r <==> forall i :: 0 <= i < |venues| ==> venues[i].category != active)
  {
    FilterEmptyIff(venues, active);
    |FilteredVenues(venues, active)| == 0
  }

  /** A filter is empty exactly when no entry has the category. */
  lemma FilterEmptyIff(vs: seq<Venue>, c: Category)
    ensures |Filter(vs, c)| == 0 <==> forall i :: 0 <= i < |vs| ==> vs[i].category != c
  {
    var r := Filter(vs, c);
    if r != [] {
      assert r[0] in r;
    }
    forall i | 0 <= i < |vs| && vs[i].category == c ensures r != [] {
      FilterKeeps(vs, c, i);
    }
  }

  /** No venue has the `All` category, so every venue is under exactly one other tab. */
  lemma NoVenueIsAll()
    ensures forall v :: v in VenueTable ==> v.category != All && v.category in Tabs[1..]
  {
    forall v | v in VenueTable ensures v.category != All && v.category in Tabs[1..] {
      assert Tabs[1..] == [Festivals, Corporate, Retreats, Private, International];
    }
  }

  /** The venue ids are pairwise distinct, so they identify the list items. */
  lemma VenueIdsDistinct()
    ensures forall i, j :: 0 <= i < j < |VenueTable| ==> VenueTable[i].id != VenueTable[j].id
  {
  }

  /** Filtering with each of the five categories partitions a table without `All`. */
  lemma {:induction false} FilterPartition(vs: seq<Venue>)
    requires forall i :: 0 <= i < |vs| ==> vs[i].category != All
    ensures |Filter(vs, Festivals)| + |Filter(vs, Corporate)| + |Filter(vs, Retreats)|
            + |Filter(vs, Private)| + |Filter(vs, International)| == |vs|
  {
    if vs != [] {
      assert vs[0].category != All;
      FilterPartition(vs[1..]);
      FilterLength(vs, Festivals);
      FilterLength(vs, Corporate);
      FilterLength(vs, Retreats);
      FilterLength(vs, Private);
      FilterLength(vs, International);
    }
  }

  /** Filtering a non-empty table keeps its head exactly when the head matches. */
  lemma FilterLength(vs: seq<Venue>, c: Category)
    requires vs != []
    ensures |Filter(vs, c)| == |Filter(vs[1..], c)| + (if vs[0].category == c then 1 else 0)
  {
  }

  /** Every tab shows at least one venue, so the empty state never appears. */
  lemma EveryTabNonEmpty(active: Category)
    ensures !ShowsEmptyState(VenueTable, active)
  {
    match active
    case All =>
    case Festivals => FilterKeeps(VenueTable, active, 0);
    case Corporate => FilterKeeps(VenueTable, active, 4);
    case Retreats => FilterKeeps(VenueTable, active, 7);
    case Private => FilterKeeps(VenueTable, active, 11);
    case International => FilterKeeps(VenueTable, active, 13);
  }

  /** A category that some entry has is not filtered to nothing. */
  lemma FilterKeeps(vs: seq<Venue>, c: Category, i: nat)
    requires i < |vs| && vs[i].category == c
    ensures |Filter(vs, c)| > 0
  {
    assert vs[i] in vs;
  }

  /** For a table whose venues all have a category other than `All`, as the venue
      table's do (`NoVenueIsAll`), the five category tabs together list each venue
      exactly once. */
  lemma CategoryTabsPartition(venues: seq<Venue>)
    requires forall v :: v in venues ==> v.category != All
    ensures |FilteredVenues(venues, Festivals)| + |FilteredVenues(venues, Corporate)|
            + |FilteredVenues(venues, Retreats)| + |FilteredVenues(venues, Private)|
            + |FilteredVenues(venues, International)| == |venues|
  {
    forall i | 0 <= i < |venues| ensures venues[i].category != All {
      assert venues[i] in venues;
    }
    FilterPartition(venues);
  }
}
