/** The station directory context: favourites, the station list edits,
    sequential navigation, import, the category check and the choice of the
    station to show at start-up or after a deletion. */
module RadioDirectory {
  import opened Common

  const DefaultStationName := "DJX Discomovil Radio live"
  const AllCategories := "Todas"

  const RadioCategories := ["Noticias", "Música", "Deportes", "Religión", "Cultura", "Relax", "Otros"]
  const TvCategories := ["Noticias", "Música tv", "Cine & Series", "Documentales", "Infantil", "Deportes", "Relax", "Otros"]

  datatype Tab = All | Favorites | Tv

  // ---------------------------------------------------------------------
  // Favourites

  /** `ids.filter(x => x !== id)`. */
  function Without(ids: seq<string>, id: string): (r: seq<string>)
    ensures forall x :: x in r <==> x in ids && x != id
    ensures |r| <= |ids|
  {
    if ids == [] then []
    else if ids[0] == id then Without(ids[1..], id)
    else [ids[0]] + Without(ids[1..], id)
  }

  /** Filtering distributes over concatenation, so the kept ids stay in
      their original order. */
  lemma {:induction false} WithoutAppend(a: seq<string>, b: seq<string>, id: string)
    ensures Without(a + b, id) == Without(a, id) + Without(b, id)
  {
    if a == [] {
      assert a + b == b;
    } else {
      assert (a + b)[0] == a[0] && (a + b)[1..] == a[1..] + b;
      WithoutAppend(a[1..], b, id);
    }
  }

  /** Removing an id that is absent changes nothing. */
  lemma {:induction false} WithoutAbsent(ids: seq<string>, id: string)
    requires id !in ids
    ensures Without(ids, id) == ids
  {
    if ids != [] {
      WithoutAbsent(ids[1..], id);
    }
  }

  /** `toggleFavorite`: removes the id when present, appends it otherwise.
      Toggling flips the id's membership, leaves every other id's membership
      alone, and appends a new id at the end. */
  function ToggleFavorite(favorites: seq<string>, id: string): (r: seq<string>)
    ensures id in r <==> id !in favorites
    ensures forall x :: x != id ==> (x in r <==> x in favorites)
    ensures id !in favorites ==> r == favorites + [id]
  {
    if id in favorites then Without(favorites, id) else favorites + [id]
  }

  /** Adding a favourite and toggling it again restores the list. */
  lemma {:induction false} ToggleTwice(favorites: seq<string>, id: string)
    requires id !in favorites
    ensures ToggleFavorite(ToggleFavorite(favorites, id), id) == favorites
  {
    WithoutAppend(favorites, [id], id);
    WithoutAbsent(favorites, id);
    assert Without([id], id) == [];
  }

  // ---------------------------------------------------------------------
  // Station list edits

  /** `stations.filter(s => s.id !== id)`. */
  function RemoveStation(stations: seq<Station>, id: string): (r: seq<Station>)
    ensures forall s :: s in r <==> s in stations && s.id != id
    ensures |r| <= |stations|
  {
    if stations == [] then []
    else if stations[0].id == id then RemoveStation(stations[1..], id)
    else [stations[0]] + RemoveStation(stations[1..], id)
  }

  lemma {:induction false} RemoveStationAppend(a: seq<Station>, b: seq<Station>, id: string)
    ensures RemoveStation(a + b, id) == RemoveStation(a, id) + RemoveStation(b, id)
  {
    if a == [] {
      assert a + b == b;
    } else {
      assert (a + b)[0] == a[0] && (a + b)[1..] == a[1..] + b;
      RemoveStationAppend(a[1..], b, id);
    }
  }

  /** `stations.map(s => s.id === u.id ? u : s)`. */
  function UpdateStation(stations: seq<Station>, u: Station): (r: seq<Station>)
    ensures |r| == |stations|
  {
    seq(|stations|, i requires 0 <= i < |stations| => if stations[i].id == u.id then u else stations[i])
  }

  /** The ids of a list, in order. */
  function Ids(stations: seq<Station>): (r: seq<string>)
    ensures |r| == |stations| && forall i :: 0 <= i < |stations| ==> r[i] == stations[i].id
  {
    seq(|stations|, i requires 0 <= i < |stations| => stations[i].id)
  }

  /** An update keeps every position and id; the stations with the updated
      id become the new record and all others stay as they were. */
  lemma {:induction false} UpdateKeepsPositions(stations: seq<Station>, u: Station)
    ensures Ids(UpdateStation(stations, u)) == Ids(stations)
    ensures forall i :: 0 <= i < |stations| && stations[i].id == u.id ==> UpdateStation(stations, u)[i] == u
    ensures forall i :: 0 <= i < |stations| && stations[i].id != u.id ==> UpdateStation(stations, u)[i] == stations[i]
  {
  }

  /** `findIndex(s => s.id === id)`. */
  function FindStation(stations: seq<Station>, id: string): (r: int)
    ensures -1 <= r < |stations|
    ensures r >= 0 ==> stations[r].id == id
    ensures forall k :: 0 <= k < |stations| && (r == -1 || k < r) ==> stations[k].id != id
  {
    if stations == [] then -1
    else if stations[0].id == id then 0
    else
      var k := FindStation(stations[1..], id);
      if k == -1 then -1 else k + 1
  }

  // ---------------------------------------------------------------------
  // Navigation

  /** `(index + 1) % n`, with JavaScript's remainder. */
  function NextIndex(index: int, n: int): (r: int)
    requires n > 0
    ensures -1 <= index ==> 0 <= r < n
    ensures 0 <= index ==> r == (index + 1) % n
  {
    JsRem(index + 1, n)
  }

  /** `(index - 1 + n) % n`, with JavaScript's remainder. */
  function PrevIndex(index: int, n: int): (r: int)
    requires n > 0
    ensures -1 <= index ==> 0 <= r < n
    ensures 0 <= index ==> r == (index - 1 + n) % n
  {
    JsRem(index - 1 + n, n)
  }

  /** For a current station missing from the list (index -1), next goes to
      the first station and previous to the one before last (the first when
      there is only one): the remainder of -1 is 0 only because n is 1. */
  lemma {:induction false} NavigationIndices(index: int, n: int)
    requires n > 0 && index == -1
    ensures NextIndex(index, n) == 0
    ensures n >= 2 ==> PrevIndex(index, n) == n - 2
    ensures n == 1 ==> PrevIndex(index, n) == 0
  {
    if n == 1 {
      assert JsRem(-1, 1) == 0;
    }
  }

  lemma ModOfSmall(x: int, n: int)
    requires 0 <= x < n
    ensures x % n == x
  {
  }

  lemma ModOfShifted(x: int, n: int)
    requires 0 <= x < n
    ensures (x + n) % n == x
  {
    assert (x + n) == 1 * n + x;
  }

  /** Previous undoes next on a found station. */
  lemma {:induction false} PrevUndoesNext(index: int, n: int)
    requires 0 <= index < n
    ensures PrevIndex(NextIndex(index, n), n) == index
  {
    if index + 1 < n {
      ModOfSmall(index + 1, n);
      ModOfSmall(index, n);
      ModOfShifted(index, n);
    } else {
      ModOfSmall(0, n);
      assert NextIndex(index, n) == 0;
      ModOfShifted(n - 1, n);
      ModOfSmall(n - 1, n);
    }
  }

  // ---------------------------------------------------------------------
  // Import

  /** The import filter: a name and either a URL or an iframe URL. */
  predicate Importable(s: Station)
  {
    s.name != [] && (s.url != [] || Truthy(s.iframeUrl))
  }

  /** An imported station as appended: a fresh id, and "audio" when the type
      is missing; every other field is the entry's own. */
  function Stamped(s: Station, id: string): (r: Station)
    ensures r.id == id && r.kind != []
    ensures s.kind == [] ==> r.kind == "audio"
    ensures s.kind != [] ==> r.kind == s.kind
    ensures r.(id := s.id, kind := s.kind) == s
  {
    s.(id := id, kind := if s.kind != [] then s.kind else "audio")
  }

  /** The list `importStations` builds from `prev`, the imported entries and
      the id drawn for each entry: `prev` stays a prefix and at most one
      station is appended per entry. */
  function Imported(prev: seq<Station>, imported: seq<Station>, ids: seq<string>): (r: seq<Station>)
    requires |ids| == |imported|
    ensures |prev| <= |r| <= |prev| + |imported|
    ensures r[..|prev|] == prev
    decreases |imported|
  {
    if imported == [] then prev
    else
      var last := |imported| - 1;
      var before := Imported(prev, imported[..last], ids[..last]);
      if Importable(imported[last]) then
        assert (before + [Stamped(imported[last], ids[last])])[..|prev|] == before[..|prev|];
        before + [Stamped(imported[last], ids[last])]
      else before
  }

  /** Importing entries one after the other: the second batch is imported
      onto the result of the first. */
  lemma {:induction false} ImportedSplit(prev: seq<Station>, a: seq<Station>, ia: seq<string>,
                                         b: seq<Station>, ib: seq<string>)
    requires |ia| == |a| && |ib| == |b|
    ensures Imported(prev, a + b, ia + ib) == Imported(Imported(prev, a, ia), b, ib)
    decreases |b|
  {
    if b == [] {
      assert a + b == a && ia + ib == ia;
    } else {
      var last := |b| - 1;
      assert (a + b)[..|a + b| - 1] == a + b[..last];
      assert (ia + ib)[..|ia + ib| - 1] == ia + ib[..last];
      assert (a + b)[|a + b| - 1] == b[last] && (ia + ib)[|ia + ib| - 1] == ib[last];
      ImportedSplit(prev, a, ia, b[..last], ib[..last]);
    }
  }

  /** What an import appends does not depend on the previous list. */
  lemma {:induction false} ImportedKeepsPrev(prev: seq<Station>, imported: seq<Station>, ids: seq<string>)
    requires |ids| == |imported|
    ensures Imported(prev, imported, ids) == prev + Imported([], imported, ids)
    decreases |imported|
  {
    if imported != [] {
      var last := |imported| - 1;
      ImportedKeepsPrev(prev, imported[..last], ids[..last]);
      var before := Imported([], imported[..last], ids[..last]);
      if Importable(imported[last]) {
        assert prev + before + [Stamped(imported[last], ids[last])]
            == prev + (before + [Stamped(imported[last], ids[last])]);
      }
    }
  }

  /** The batch is imported entry by entry, front to back, and one entry
      contributes its stamped station when it is importable and nothing
      otherwise: so exactly the importable entries are appended, in order. */
  lemma {:induction false} ImportedOneByOne(imported: seq<Station>, ids: seq<string>)
    requires |ids| == |imported|
    ensures forall j :: 0 <= j < |imported| ==>
      Imported([], [imported[j]], [ids[j]]) == (if Importable(imported[j]) then [Stamped(imported[j], ids[j])] else [])
    ensures |imported| > 0 ==>
      Imported([], imported, ids) == Imported([], [imported[0]], [ids[0]]) + Imported([], imported[1..], ids[1..])
  {
    forall j | 0 <= j < |imported|
      ensures Imported([], [imported[j]], [ids[j]]) == (if Importable(imported[j]) then [Stamped(imported[j], ids[j])] else [])
    {
      assert [imported[j]][..0] == [] && [ids[j]][..0] == [];
    }
    if imported != [] {
      assert imported == [imported[0]] + imported[1..] && ids == [ids[0]] + ids[1..];
      ImportedSplit([], [imported[0]], [ids[0]], imported[1..], ids[1..]);
      ImportedKeepsPrev(Imported([], [imported[0]], [ids[0]]), imported[1..], ids[1..]);
    }
  }

  /** The previous list is kept as a prefix and the rest does not depend on
      it; every appended station is an importable entry with its fresh id,
      and every importable entry is appended. */
  lemma {:induction false} ImportedShape(prev: seq<Station>, imported: seq<Station>, ids: seq<string>)
    requires |ids| == |imported|
    ensures Imported(prev, imported, ids) == prev + Imported([], imported, ids)
    ensures forall k :: |prev| <= k < |Imported(prev, imported, ids)| ==>
      exists j :: 0 <= j < |imported| && Importable(imported[j])
                  && Imported(prev, imported, ids)[k] == Stamped(imported[j], ids[j])
    ensures forall j :: 0 <= j < |imported| && Importable(imported[j]) ==>
      Stamped(imported[j], ids[j]) in Imported(prev, imported, ids)
    decreases |imported|
  {
    ImportedKeepsPrev(prev, imported, ids);
    if imported != [] {
      var last := |imported| - 1;
      ImportedShape(prev, imported[..last], ids[..last]);
      var before := Imported(prev, imported[..last], ids[..last]);
      forall k | |prev| <= k < |Imported(prev, imported, ids)|
        ensures exists j :: 0 <= j < |imported| && Importable(imported[j])
                  && Imported(prev, imported, ids)[k] == Stamped(imported[j], ids[j])
      {
        if k < |before| {
          var j :| 0 <= j < |imported[..last]| && Importable(imported[..last][j])
                   && before[k] == Stamped(imported[..last][j], ids[..last][j]);
          assert imported[..last][j] == imported[j] && ids[..last][j] == ids[j];
        } else {
          assert Imported(prev, imported, ids)[k] == Stamped(imported[last], ids[last]);
        }
      }
      forall j | 0 <= j < |imported| && Importable(imported[j])
        ensures Stamped(imported[j], ids[j]) in Imported(prev, imported, ids)
      {
        if j < last {
          assert imported[..last][j] == imported[j] && ids[..last][j] == ids[j];
          assert Stamped(imported[j], ids[j]) in before;
        }
      }
    }
  }

  // ---------------------------------------------------------------------
  // Category check and station choice

  function CategoriesOf(tab: Tab): seq<string>
  {
    if tab == Tv then TvCategories else RadioCategories
  }

  /** The category effect: a selection that is neither "Todas" nor one of
      the active tab's categories is reset to "Todas". */
  function ValidatedCategory(tab: Tab, selected: string, isInitialLoad: bool): (r: string)
    ensures isInitialLoad ==> r == selected
    ensures !isInitialLoad ==> (r == selected <==> selected == AllCategories || selected in CategoriesOf(tab))
    ensures r == selected || r == AllCategories
  {
    if !isInitialLoad && selected != AllCategories && selected !in CategoriesOf(tab) then AllCategories
    else selected
  }

  /** `findIndex(s => s.name === name)`. */
  function FindNamed(stations: seq<Station>, name: string): (r: int)
    ensures -1 <= r < |stations|
    ensures r >= 0 ==> stations[r].name == name
    ensures forall k :: 0 <= k < |stations| && (r == -1 || k < r) ==> stations[k].name != name
  {
    if stations == [] then -1
    else if stations[0].name == name then 0
    else
      var k := FindNamed(stations[1..], name);
      if k == -1 then -1 else k + 1
  }

  /** `stations.find(s => s.name === 'DJX Discomovil Radio live') || stations[0]`:
      the first station with that name, or the first station. */
  function DefaultStation(stations: seq<Station>): (s: Station)
    requires |stations| > 0
    ensures s in stations
    ensures (exists k :: 0 <= k < |stations| && stations[k].name == DefaultStationName) ==>
      exists k :: 0 <= k < |stations| && stations[k] == s && s.name == DefaultStationName
                  && forall j :: 0 <= j < k ==> stations[j].name != DefaultStationName
    ensures (forall k :: 0 <= k < |stations| ==> stations[k].name != DefaultStationName) ==> s == stations[0]
  {
    var k := FindNamed(stations, DefaultStationName);
    if k >= 0 then stations[k] else stations[0]
  }

  /** What a start-up or robustness effect does to the current station. */
  datatype Choice = Keep | Select(station: Station)

  /** The start-up effect, run whenever the stations change once they are
      loaded: before the first initialization it picks the default station;
      afterwards it restores the first station with the stored last station
      id when one is stored and listed, keeps the current station when the
      stored id is not listed, and picks the default when no id is stored. */
  function InitialChoice(stations: seq<Station>, isInitialLoad: bool, initialized: bool,
                         lastStationId: Option<string>): (c: Choice)
    ensures isInitialLoad || |stations| == 0 ==> c == Keep
    ensures !isInitialLoad && |stations| > 0 && (!initialized || !Truthy(lastStationId)) ==>
      c == Select(DefaultStation(stations))
    ensures !isInitialLoad && |stations| > 0 && initialized && Truthy(lastStationId) ==>
      && (c == Keep <==> forall k :: 0 <= k < |stations| ==> stations[k].id != lastStationId.value)
      && (c.Select? ==>
            exists k :: 0 <= k < |stations| && stations[k] == c.station && c.station.id == lastStationId.value
                        && forall j :: 0 <= j < k ==> stations[j].id != lastStationId.value)
    ensures c.Select? ==> c.station in stations
  {
    if isInitialLoad || |stations| == 0 then Keep
    else if !initialized then Select(DefaultStation(stations))
    else if Truthy(lastStationId) then
      var k := FindStation(stations, lastStationId.value);
      if k >= 0 then Select(stations[k]) else Keep
    else Select(DefaultStation(stations))
  }

  /** The deletion effect: a current station that is no longer listed is
      replaced by the default station, except temporary "yt-" stations. */
  function DeletionFallback(stations: seq<Station>, current: Option<Station>, isInitialLoad: bool): (c: Choice)
    ensures c.Select? ==> |stations| > 0 && c.station == DefaultStation(stations)
    ensures c.Select? <==>
      && !isInitialLoad && |stations| > 0 && current.Some?
      && !StartsWith(current.value.id, "yt-")
      && forall k :: 0 <= k < |stations| ==> stations[k].id != current.value.id
  {
    if !isInitialLoad && |stations| > 0 && current.Some? && !StartsWith(current.value.id, "yt-")
       && FindStation(stations, current.value.id) == -1
    then Select(DefaultStation(stations))
    else Keep
  }

  /** A listed current station, or a "yt-" one, is never replaced. */
  lemma {:induction false} DeletionKeepsListed(stations: seq<Station>, current: Station, isInitialLoad: bool)
    requires current in stations || StartsWith(current.id, "yt-")
    ensures DeletionFallback(stations, Some(current), isInitialLoad) == Keep
  {
    if current in stations {
      var k :| 0 <= k < |stations| && stations[k] == current;
      assert stations[k].id == current.id;
    }
  }

  // ---------------------------------------------------------------------
  // The provider

  /** What a navigation request did. */
  datatype Navigation = Ignored | Played(station: Station) | Threw

  class Provider {
    var stations: seq<Station>
    var current: Option<Station>
    var isPlaying: bool
    var favorites: seq<string>
    var storedLastStationId: Option<string>
    var initialized: bool
    var activeTab: Tab
    var selectedCategory: string

    /** The stored values (`favorites`, `lastStationId`, `radioInitialized`,
        the tab and the category) are parameters; the stations are loaded
        later. */
    constructor (favorites: seq<string>, lastStationId: Option<string>, initialized: bool,
                 activeTab: Tab, selectedCategory: string)
      ensures stations == [] && current == None && !isPlaying
      ensures this.favorites == favorites && storedLastStationId == lastStationId
      ensures this.initialized == initialized && this.activeTab == activeTab
      ensures this.selectedCategory == selectedCategory
    {
      stations := [];
      current := None;
      isPlaying := false;
      this.favorites := favorites;
      storedLastStationId := lastStationId;
      this.initialized := initialized;
      this.activeTab := activeTab;
      this.selectedCategory := selectedCategory;
    }

    /** `playStation`: selects the station, starts playing and records its id. */
    method PlayStation(s: Station)
      modifies this
      ensures current == Some(s) && isPlaying && storedLastStationId == Some(s.id)
      ensures stations == old(stations) && favorites == old(favorites) && initialized == old(initialized)
      ensures activeTab == old(activeTab) && selectedCategory == old(selectedCategory)
    {
      current := Some(s);
      isPlaying := true;
      storedLastStationId := Some(s.id);
    }

    method TogglePlay()
      modifies this
      ensures isPlaying == !old(isPlaying)
      ensures current == old(current) && stations == old(stations) && favorites == old(favorites)
      ensures storedLastStationId == old(storedLastStationId) && initialized == old(initialized)
      ensures activeTab == old(activeTab) && selectedCategory == old(selectedCategory)
    {
      isPlaying := !isPlaying;
    }

    method ToggleFavoriteOf(id: string)
      modifies this
      ensures favorites == ToggleFavorite(old(favorites), id)
      ensures current == old(current) && stations == old(stations) && isPlaying == old(isPlaying)
      ensures storedLastStationId == old(storedLastStationId) && initialized == old(initialized)
      ensures activeTab == old(activeTab) && selectedCategory == old(selectedCategory)
    {
      favorites := ToggleFavorite(favorites, id);
    }

    method AddStation(s: Station)
      modifies this
      ensures stations == old(stations) + [s]
      ensures current == old(current) && favorites == old(favorites) && isPlaying == old(isPlaying)
      ensures storedLastStationId == old(storedLastStationId) && initialized == old(initialized)
      ensures activeTab == old(activeTab) && selectedCategory == old(selectedCategory)
    {
      stations := stations + [s];
    }

    method RemoveStationById(id: string)
      modifies this
      ensures stations == RemoveStation(old(stations), id)
      ensures current == old(current) && favorites == old(favorites) && isPlaying == old(isPlaying)
      ensures storedLastStationId == old(storedLastStationId) && initialized == old(initialized)
      ensures activeTab == old(activeTab) && selectedCategory == old(selectedCategory)
    {
      stations := RemoveStation(stations, id);
    }

    method UpdateStationRecord(u: Station)
      modifies this
      ensures stations == UpdateStation(old(stations), u)
      ensures current == old(current) && favorites == old(favorites) && isPlaying == old(isPlaying)
      ensures storedLastStationId == old(storedLastStationId) && initialized == old(initialized)
      ensures activeTab == old(activeTab) && selectedCategory == old(selectedCategory)
    {
      stations := UpdateStation(stations, u);
    }

    /** `importStations`: appends the importable entries, one by one, with
        the id drawn for each. */
    method ImportStations(imported: seq<Station>, ids: seq<string>)
      requires |ids| == |imported|
      modifies this
      ensures stations == Imported(old(stations), imported, ids)
      ensures current == old(current) && favorites == old(favorites) && isPlaying == old(isPlaying)
      ensures storedLastStationId == old(storedLastStationId) && initialized == old(initialized)
      ensures activeTab == old(activeTab) && selectedCategory == old(selectedCategory)
    {
      var next := stations;
      var i := 0;
      while i < |imported|
        invariant 0 <= i <= |imported|
        invariant next == Imported(stations, imported[..i], ids[..i])
      {
        assert imported[..i + 1][..i] == imported[..i] && ids[..i + 1][..i] == ids[..i];
        if Importable(imported[i]) {
          next := next + [Stamped(imported[i], ids[i])];
        }
        i := i + 1;
      }
      assert imported[..i] == imported && ids[..i] == ids;
      stations := next;
    }

    /** `nextStation`: nothing without a current station; with an empty list
        the index is NaN, the current station becomes undefined, playing is
        set, and recording the id throws; otherwise the station after the
        current one (the first when the current one is not listed) plays. */
    method Next() returns (r: Navigation)
      modifies this
      ensures old(current).None? ==>
        r == Ignored && current == old(current) && isPlaying == old(isPlaying)
        && storedLastStationId == old(storedLastStationId)
      ensures old(current).Some? && |old(stations)| == 0 ==>
        r == Threw && current == None && isPlaying && storedLastStationId == old(storedLastStationId)
      ensures old(current).Some? && |old(stations)| > 0 ==>
        var s := old(stations)[NextIndex(FindStation(old(stations), old(current).value.id), |old(stations)|)];
        r == Played(s) && current == Some(s) && isPlaying && storedLastStationId == Some(s.id)
      ensures stations == old(stations) && favorites == old(favorites) && initialized == old(initialized)
      ensures activeTab == old(activeTab) && selectedCategory == old(selectedCategory)
    {
      if current.None? {
        return Ignored;
      }
      if |stations| == 0 {
        current := None;
        isPlaying := true;
        return Threw;
      }
      var index := FindStation(stations, current.value.id);
      var s := stations[NextIndex(index, |stations|)];
      PlayStation(s);
      r := Played(s);
    }

    /** `prevStation`, the mirror of `Next`. */
    method Prev() returns (r: Navigation)
      modifies this
      ensures old(current).None? ==>
        r == Ignored && current == old(current) && isPlaying == old(isPlaying)
        && storedLastStationId == old(storedLastStationId)
      ensures old(current).Some? && |old(stations)| == 0 ==>
        r == Threw && current == None && isPlaying && storedLastStationId == old(storedLastStationId)
      ensures old(current).Some? && |old(stations)| > 0 ==>
        var s := old(stations)[PrevIndex(FindStation(old(stations), old(current).value.id), |old(stations)|)];
        r == Played(s) && current == Some(s) && isPlaying && storedLastStationId == Some(s.id)
      ensures stations == old(stations) && favorites == old(favorites) && initialized == old(initialized)
      ensures activeTab == old(activeTab) && selectedCategory == old(selectedCategory)
    {
      if current.None? {
        return Ignored;
      }
      if |stations| == 0 {
        current := None;
        isPlaying := true;
        return Threw;
      }
      var index := FindStation(stations, current.value.id);
      var s := stations[PrevIndex(index, |stations|)];
      PlayStation(s);
      r := Played(s);
    }

    /** Switching tabs, followed by the category check. */
    method SetActiveTab(tab: Tab, isInitialLoad: bool)
      modifies this
      ensures activeTab == tab
      ensures selectedCategory == ValidatedCategory(tab, old(selectedCategory), isInitialLoad)
      ensures stations == old(stations) && current == old(current) && favorites == old(favorites)
      ensures isPlaying == old(isPlaying) && storedLastStationId == old(storedLastStationId)
      ensures initialized == old(initialized)
    {
      activeTab := tab;
      selectedCategory := ValidatedCategory(tab, selectedCategory, isInitialLoad);
    }

    /** The start-up effect applied to the provider, after the stations are
        loaded and again after every change to them: the first run records
        that the player is initialized; the chosen station becomes current
        without being recorded as the last station. */
    method ApplyInitialChoice(isInitialLoad: bool)
      modifies this
      ensures var c := InitialChoice(old(stations), isInitialLoad, old(initialized), old(storedLastStationId));
        && (c.Select? ==> current == Some(c.station))
        && (c == Keep ==> current == old(current))
      ensures initialized == (old(initialized) || (!isInitialLoad && |old(stations)| > 0))
      ensures stations == old(stations) && isPlaying == old(isPlaying) && favorites == old(favorites)
      ensures storedLastStationId == old(storedLastStationId)
      ensures activeTab == old(activeTab) && selectedCategory == old(selectedCategory)
    {
      var c := InitialChoice(stations, isInitialLoad, initialized, storedLastStationId);
      if !isInitialLoad && |stations| > 0 {
        initialized := true;
      }
      if c.Select? {
        current := Some(c.station);
      }
    }

    /** The deletion effect applied to the provider: the fallback becomes
        current and its id is recorded. */
    method ApplyDeletionFallback(isInitialLoad: bool)
      modifies this
      ensures var c := DeletionFallback(old(stations), old(current), isInitialLoad);
        && (c.Select? ==> current == Some(c.station) && storedLastStationId == Some(c.station.id))
        && (c == Keep ==> current == old(current) && storedLastStationId == old(storedLastStationId))
      ensures stations == old(stations) && isPlaying == old(isPlaying) && favorites == old(favorites)
      ensures initialized == old(initialized)
      ensures activeTab == old(activeTab) && selectedCategory == old(selectedCategory)
    {
      var c := DeletionFallback(stations, current, isInitialLoad);
      if c.Select? {
        current := Some(c.station);
        storedLastStationId := Some(c.station.id);
      }
    }
  }

  /** The start-up effect runs again after every station edit. A player
      that starts uninitialized shows the default station without recording
      it, so a last station id stored earlier is still there: the next edit
      (here, adding a station) switches to that stored station. */
  method EditRestoresStoredStation(stored: Station, other: Station, added: Station)
    returns (before: Option<Station>, after: Option<Station>)
    requires stored.id != [] && other.id != stored.id
    requires other.name == DefaultStationName
    ensures before == Some(other) && after == Some(stored)
  {
    var p := new Provider([], Some(stored.id), false, All, AllCategories);
    p.AddStation(other);
    p.AddStation(stored);
    p.ApplyInitialChoice(false);
    before := p.current;
    p.AddStation(added);
    assert p.stations == [other, stored, added];
    assert FindStation(p.stations, stored.id) == 1;
    p.ApplyInitialChoice(false);
    after := p.current;
  }
}
