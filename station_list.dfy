/** The station list panel: the search filter over name and country, and
    the list shown under each of its three tabs. */
module StationList {
  import opened Common

  /** A station matches when its lower-cased name or country contains the
      lower-cased query. */
  predicate Matches(s: Station, query: string)
  {
    Contains(ToLower(s.name), ToLower(query)) || Contains(ToLower(s.country), ToLower(query))
  }

  /** `filteredStations`. */
  function Filtered(stations: seq<Station>, query: string): (r: seq<Station>)
    ensures forall s :: s in r <==> s in stations && Matches(s, query)
    ensures |r| <= |stations|
  {
    if stations == [] then []
    else
      var rest := Filtered(stations[1..], query);
      if Matches(stations[0], query) then [stations[0]] + rest else rest
  }

  /** The filter keeps the original order: it distributes over concatenation. */
  lemma {:induction false} FilteredAppend(a: seq<Station>, b: seq<Station>, query: string)
    ensures Filtered(a + b, query) == Filtered(a, query) + Filtered(b, query)
  {
    if a == [] {
      assert a + b == b;
    } else {
      assert (a + b)[0] == a[0] && (a + b)[1..] == a[1..] + b;
      FilteredAppend(a[1..], b, query);
    }
  }

  /** Every string contains the empty string. */
  lemma ContainsEmpty(s: string)
    ensures Contains(s, [])
  {
    assert OccursAt(s, [], 0);
  }

  /** An empty query keeps every station, in order. */
  lemma {:induction false} EmptyQueryKeepsAll(stations: seq<Station>)
    ensures Filtered(stations, []) == stations
  {
    if stations != [] {
      ContainsEmpty(ToLower(stations[0].name));
      assert ToLower([]) == [];
      EmptyQueryKeepsAll(stations[1..]);
    }
  }

  /** The filter is case-insensitive: the query's case does not matter. */
  lemma {:induction false} QueryCaseIgnored(stations: seq<Station>, query: string)
    ensures Filtered(stations, query) == Filtered(stations, ToLower(query))
  {
    LowerIdempotent(query);
    if stations != [] {
      QueryCaseIgnored(stations[1..], query);
    }
  }

  lemma LowerIdempotent(s: string)
    ensures ToLower(ToLower(s)) == ToLower(s)
  {
    assert forall i :: 0 <= i < |s| ==> LowerChar(LowerChar(s[i])) == LowerChar(s[i]);
  }

  /** The panel's tabs. */
  datatype Tab = All | Favorites | Recent

  /** `stations.filter(s => favorites.includes(s.id))`. */
  function FavoriteStations(stations: seq<Station>, favorites: seq<string>): (r: seq<Station>)
    ensures forall s :: s in r <==> s in stations && s.id in favorites
    ensures |r| <= |stations|
  {
    if stations == [] then []
    else
      var rest := FavoriteStations(stations[1..], favorites);
      if stations[0].id in favorites then [stations[0]] + rest else rest
  }

  /** The favourites keep the list's order: the filter distributes over
      concatenation. */
  lemma {:induction false} FavoriteStationsAppend(a: seq<Station>, b: seq<Station>, favorites: seq<string>)
    ensures FavoriteStations(a + b, favorites) == FavoriteStations(a, favorites) + FavoriteStations(b, favorites)
  {
    if a == [] {
      assert a + b == b;
    } else {
      assert (a + b)[0] == a[0] && (a + b)[1..] == a[1..] + b;
      FavoriteStationsAppend(a[1..], b, favorites);
    }
  }

  /** `displayStations`. The radio context does not provide the recent list,
      so under the recent tab the value is `undefined` and reading its length
      fails: the model returns None there. */
  function Displayed(stations: seq<Station>, favorites: seq<string>, query: string, tab: Tab): (r: Option<seq<Station>>)
    ensures r.None? <==> tab == Recent
    ensures tab == All ==> r == Some(Filtered(stations, query))
    ensures tab == Favorites ==> r == Some(FavoriteStations(stations, favorites))
  {
    match tab
    case All => Some(Filtered(stations, query))
    case Favorites => Some(FavoriteStations(stations, favorites))
    case Recent => None
  }
}
