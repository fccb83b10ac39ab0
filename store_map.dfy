/**
 * The store map: the page's store filter and filter count, the sidebar's search, filter and
 * sort, the filter chips that edit the map filters, and the map's own pin filter, pin colour,
 * badge and pin grid.
 *
 * The map filters are a filter object as in `FilterState`: the chips write `chains` and
 * `categories` as lists and `radius` as a single value.
 */
module StoreMap {
  import opened JsText
  import opened Seqs
  import opened FilterState

  datatype Store = Store(
    id: int,
    name: string,
    chain: string,
    address: string,
    distance: real,
    isOpen: bool,
    offers: int)

  // ---------------------------------------------------------------- the page's store filter

  /** `filters?.chains && filters?.chains?.length > 0`. */
  predicate ChainsOn(f: Filters) {
    Set(f, "chains") && LengthOf(f["chains"]) > 0
  }

  /** `filters.chains.includes(store.chain)` when chains are given. */
  predicate ChainOk(f: Filters, s: Store) {
    !ChainsOn(f) || HasItem(f["chains"], s.chain)
  }

  /** `store.distance <= parseFloat(filters.radius)` when the radius is truthy. */
  predicate RadiusOk(f: Filters, s: Store) {
    !Set(f, "radius") || AtMost(s.distance, ParseFloat(TextOf(f["radius"])))
  }

  predicate PageKeep(f: Filters, s: Store) {
    ChainOk(f, s) && RadiusOk(f, s)
  }

  function ChainStage(f: Filters): Store -> bool { s => ChainOk(f, s) }
  function RadiusStage(f: Filters): Store -> bool { s => RadiusOk(f, s) }
  function PageStage(f: Filters): Store -> bool { s => PageKeep(f, s) }

  /** The stores the page hands to the sidebar and the map. */
  function FilteredStores(stores: seq<Store>, f: Filters): (r: seq<Store>)
    ensures forall i :: 0 <= i < |r| ==> r[i] in stores && PageKeep(f, r[i])
    ensures forall i :: 0 <= i < |stores| && PageKeep(f, stores[i]) ==> stores[i] in r
  {
    Filter(stores, PageStage(f))
  }

  lemma PageStagesCompose(stores: seq<Store>, f: Filters)
    ensures Filter(Filter(stores, ChainStage(f)), RadiusStage(f)) == FilteredStores(stores, f)
  {
    FilterConj(stores, ChainStage(f), RadiusStage(f), PageStage(f));
  }

  method ChainStep(s: seq<Store>, f: Filters) returns (r: seq<Store>)
    ensures r == Filter(s, ChainStage(f))
  {
    r := s;
    if ChainsOn(f) {
      var chains := f["chains"];
      r := Filter(r, (x: Store) => HasItem(chains, x.chain));
      FilterExt(s, (x: Store) => HasItem(chains, x.chain), ChainStage(f));
    } else {
      FilterAll(s, ChainStage(f));
    }
  }

  method RadiusStep(s: seq<Store>, f: Filters) returns (r: seq<Store>)
    ensures r == Filter(s, RadiusStage(f))
  {
    r := s;
    if Set(f, "radius") {
      var radius := ParseFloat(TextOf(f["radius"]));
      r := Filter(r, (x: Store) => AtMost(x.distance, radius));
      FilterExt(s, (x: Store) => AtMost(x.distance, radius), RadiusStage(f));
    } else {
      FilterAll(s, RadiusStage(f));
    }
  }

  /** `getFilteredStores`: the chain stage, then the radius stage. */
  method GetFilteredStores(stores: seq<Store>, f: Filters) returns (r: seq<Store>)
    ensures r == FilteredStores(stores, f)
  {
    r := ChainStep(stores, f);
    r := RadiusStep(r, f);
    PageStagesCompose(stores, f);
  }

  /** With no filters every store is kept, in order. */
  lemma NoFiltersKeepsAll(stores: seq<Store>)
    ensures FilteredStores(stores, map[]) == stores
  {
    FilterAll(stores, PageStage(map[]));
  }

  /** The "Alle" radius (`''`) is falsy: it filters exactly as having no radius. */
  lemma EmptyRadiusIsNoRadius(stores: seq<Store>, f: Filters)
    ensures FilteredStores(stores, f["radius" := Single("")]) == FilteredStores(stores, f - {"radius"})
  {
    var g := f["radius" := Single("")];
    var h := f - {"radius"};
    assert ChainsOn(g) <==> ChainsOn(h);
    assert ChainsOn(g) ==> g["chains"] == h["chains"];
    FilterExt(stores, PageStage(g), PageStage(h));
  }

  /** `activeFilterCount`: the page's `reduce` over the filter object's keys, lists counting
      their length and other values one when truthy. */
  function PageFilterCount(f: Filters, keys: seq<string>): (n: nat)
    requires Enumerates(keys, f)
    ensures n == 0 <==> forall k :: k in f ==> Contribution(f[k]) == 0
  {
    ActiveCountZero(f, keys);
    assert forall k :: k in f ==> exists i :: 0 <= i < |keys| && keys[i] == k;
    ActiveCount(f, keys)
  }

  // ---------------------------------------------------------------- the filter chips

  /** The radius choices; the last one, "Alle", is the empty value. */
  const RadiusOptions: seq<string> := ["1", "2", "5", "10", ""]

  /** The shapes the chips write: lists under `chains` and `categories`, a single value
      under `radius`, and no other key. */
  predicate ChipShaped(f: Filters) {
    && (forall k :: k in f ==> k == "chains" || k == "radius" || k == "categories")
    && ("chains" in f ==> f["chains"].Multi?)
    && ("categories" in f ==> f["categories"].Multi?)
    && ("radius" in f ==> f["radius"].Single?)
  }

  /** `handleChainToggle` / `handleCategoryToggle` on the key `c`: remove `x` from
      `filters[c] || []` when it is included, append it otherwise. A string value has no
      `filter`, so removing from one throws. */
  function ToggleIn(f: Filters, c: string, x: string): (r: Outcome<Filters>)
    ensures r.Thrown? <==> ValueOr(f, c).Single? && Includes(ValueOr(f, c).text, x)
    ensures r.Done? ==> c in r.value && r.value[c].Multi?
    ensures r.Done? ==> forall k :: k != c ==> (k in r.value <==> k in f) && (k in f ==> r.value[k] == f[k])
    ensures r.Done? && ValueOr(f, c).Multi? ==> (x in r.value[c].items <==> x !in ValueOr(f, c).items)
    ensures r.Done? && HasItem(ValueOr(f, c), x) ==> r.value == f[c := Multi(RemoveAll(ValueOr(f, c).items, x))]
    ensures !HasItem(ValueOr(f, c), x) ==> r == Done(f[c := Multi(Spread(ValueOr(f, c)) + [x])])
  {
    var current := ValueOr(f, c);
    if HasItem(current, x) then
      match Without(current, x)
      case Thrown => Thrown
      case Done(v) => Done(f[c := v])
    else
      Done(f[c := Multi(Spread(current) + [x])])
  }

  /** Toggling a value that is not selected twice restores the list (an absent key comes
      back as the empty list). */
  lemma ToggleInTwice(f: Filters, c: string, x: string)
    requires ValueOr(f, c).Multi? && x !in ValueOr(f, c).items
    ensures ToggleIn(f, c, x).Done?
    ensures ToggleIn(ToggleIn(f, c, x).value, c, x) == Done(f[c := ValueOr(f, c)])
  {
    var items := ValueOr(f, c).items;
    var g := f[c := Multi(items + [x])];
    assert ToggleIn(f, c, x) == Done(g);
    assert ValueOr(g, c) == Multi(items + [x]);
    RemoveAllAppend(items, [x], x);
    RemoveAllAbsent(items, x);
    assert RemoveAll([x], x) == [];
    assert items + [] == items;
    assert g[c := Multi(items)] == f[c := ValueOr(f, c)];
  }

  /** The toggles keep the chips' shapes. */
  lemma ToggleInShaped(f: Filters, c: string, x: string)
    requires ChipShaped(f) && (c == "chains" || c == "categories")
    ensures ToggleIn(f, c, x).Done? && ChipShaped(ToggleIn(f, c, x).value)
  {
  }

  /** `handleRadiusChange`: only `radius` changes. */
  function RadiusChange(f: Filters, radius: string): (r: Filters)
    ensures r.Keys == f.Keys + {"radius"} && r["radius"] == Single(radius)
    ensures forall k :: k in f && k != "radius" ==> r[k] == f[k]
    ensures ChipShaped(f) ==> ChipShaped(r)
  {
    f["radius" := Single(radius)]
  }

  /** `getActiveFilterCount` of the chips: the chain count, one for a truthy radius, and the
      category count. */
  function ChipsFilterCount(f: Filters): (n: nat)
    ensures n == 0 <==>
      && ("chains" in f ==> LengthOf(f["chains"]) == 0)
      && !Set(f, "radius")
      && ("categories" in f ==> LengthOf(f["categories"]) == 0)
  {
    (if "chains" in f && LengthOf(f["chains"]) > 0 then LengthOf(f["chains"]) else 0)
    + (if Set(f, "radius") then 1 else 0)
    + (if "categories" in f && LengthOf(f["categories"]) > 0 then LengthOf(f["categories"]) else 0)
  }

  /** Choosing "Alle" adds nothing to the count; any other radius choice adds one. */
  lemma RadiusChoiceCount(f: Filters, i: nat)
    requires i < |RadiusOptions|
    ensures ChipsFilterCount(RadiusChange(f, RadiusOptions[i])) == ChipsFilterCount(f - {"radius"}) + (if i == 4 then 0 else 1)
  {
  }

  /** Once the three chip keys are taken out of an enumeration of chip-shaped filters,
      the rest counts nothing. */
  lemma ChipKeysExhausted(f: Filters, keys: seq<string>)
    requires Enumerates(keys, f) && ChipShaped(f)
    ensures forall x :: x in RemoveAll(RemoveAll(RemoveAll(keys, "chains"), "radius"), "categories") ==> x in f
    ensures ActiveCount(f, RemoveAll(RemoveAll(RemoveAll(keys, "chains"), "radius"), "categories")) == 0
  {
    var k1 := RemoveAll(keys, "chains");
    var k2 := RemoveAll(k1, "radius");
    var k3 := RemoveAll(k2, "categories");
    assert forall x :: x in k3 ==> x in keys && x != "chains" && x != "radius" && x != "categories";
    ActiveCountZero(f, k3);
  }

  /** What the entry under `c` adds to the page's count; nothing when it is absent. */
  function PartOf(f: Filters, c: string): nat {
    if c in f then Contribution(f[c]) else 0
  }

  /** On chip-shaped filters the chips' count adds up the three entries' parts. */
  lemma ChipsCountParts(f: Filters)
    requires ChipShaped(f)
    ensures ChipsFilterCount(f) == PartOf(f, "chains") + PartOf(f, "radius") + PartOf(f, "categories")
  {
  }

  /** Over filters whose keys are among the chips' three, the page's count, in any order of
      the keys, adds up the three entries' parts. */
  lemma {:induction false} CountOverChipKeys(f: Filters, keys: seq<string>)
    requires (forall x :: x in keys <==> x in f) && Distinct(keys)
    requires forall k :: k in f ==> k == "chains" || k == "radius" || k == "categories"
    ensures ActiveCount(f, keys) == PartOf(f, "chains") + PartOf(f, "radius") + PartOf(f, "categories")
  {
    if keys == [] {
      assert "chains" !in f && "radius" !in f && "categories" !in f;
    } else {
      var k := keys[0];
      var rest := keys[1..];
      var g := f - {k};
      assert k !in rest by {
        forall i | 0 <= i < |rest| ensures rest[i] != k {
          assert rest[i] == keys[i + 1];
        }
      }
      assert forall x :: x in rest <==> x in g by {
        forall x ensures x in rest <==> x in g {
          assert x in keys <==> x == k || x in rest;
        }
      }
      assert Distinct(rest) by {
        forall i, j | 0 <= i < j < |rest| ensures rest[i] != rest[j] {
          assert rest[i] == keys[i + 1] && rest[j] == keys[j + 1];
        }
      }
      CountOverChipKeys(g, rest);
      ActiveCountFrame(f, g, rest);
      assert ActiveCount(f, keys) == Contribution(f[k]) + ActiveCount(g, rest);
      assert PartOf(g, "chains") + PartOf(g, "radius") + PartOf(g, "categories") + Contribution(f[k])
        == PartOf(f, "chains") + PartOf(f, "radius") + PartOf(f, "categories") by {
        assert k == "chains" || k == "radius" || k == "categories";
      }
    }
  }

  /** On the filters the chips produce, the page's count and the chips' count agree,
      whatever the order of the keys. */
  lemma PageCountIsChipsCount(f: Filters, keys: seq<string>)
    requires Enumerates(keys, f) && ChipShaped(f)
    ensures PageFilterCount(f, keys) == ChipsFilterCount(f)
  {
    assert Distinct(keys);
    CountOverChipKeys(f, keys);
    ChipsCountParts(f);
  }

  // ---------------------------------------------------------------- the map's pins

  /** The map's own filter: with chains selected only the chain decides and the radius is
      ignored; otherwise a truthy radius decides; otherwise every store is shown. */
  predicate PinKeep(f: Filters, s: Store) {
    if ChainsOn(f) then HasItem(f["chains"], s.chain)
    else if Set(f, "radius") then AtMost(s.distance, ParseFloat(TextOf(f["radius"])))
    else true
  }

  function PinStage(f: Filters): Store -> bool { s => PinKeep(f, s) }

  function PinStores(stores: seq<Store>, f: Filters): (r: seq<Store>)
    ensures forall i :: 0 <= i < |r| ==> r[i] in stores && PinKeep(f, r[i])
    ensures forall i :: 0 <= i < |stores| && PinKeep(f, stores[i]) ==> stores[i] in r
  {
    Filter(stores, PinStage(f))
  }

  /** The map receives the page's filtered stores and filters them again with the same
      filters: that changes nothing. */
  lemma PinsOfFilteredStores(stores: seq<Store>, f: Filters)
    ensures PinStores(FilteredStores(stores, f), f) == FilteredStores(stores, f)
  {
    FilterAll(FilteredStores(stores, f), PinStage(f));
  }

  /** With chains selected the map ignores the radius. */
  lemma PinsIgnoreRadiusWithChains(stores: seq<Store>, f: Filters)
    requires ChainsOn(f)
    ensures PinStores(stores, f) == PinStores(stores, f - {"radius"})
  {
    var g := f - {"radius"};
    assert ChainsOn(g) && g["chains"] == f["chains"];
    FilterExt(stores, PinStage(f), PinStage(g));
  }

  datatype PinColor = Green | Amber | Gray

  /** `getStoreColor`. */
  function StoreColor(offers: int): (c: PinColor)
    ensures c == Green <==> offers > 20
    ensures c == Amber <==> 10 < offers <= 20
    ensures c == Gray <==> offers <= 10
  {
    if offers > 20 then Green else if offers > 10 then Amber else Gray
  }

  /** The offer badge: none without offers, `99+` above 99, the count otherwise. */
  function Badge(offers: int): (b: Option<string>)
    ensures b.None? <==> offers <= 0
    ensures offers > 99 ==> b == Some("99+")
    ensures 0 < offers <= 99 ==> b.Some? && AllDigits(b.value) && DigitsValue(b.value) == offers
  {
    if offers <= 0 then None
    else if offers > 99 then Some("99+")
    else
      NatTextValue(offers);
      Some(IntText(offers))
  }

  /** The pin of the `i`-th shown store sits in a grid three pins wide (percentages). */
  function PinLeft(i: nat): (x: nat)
    ensures x == 30 || x == 55 || x == 80
  {
    30 + (i % 3) * 25
  }

  function PinTop(i: nat): (y: nat)
    ensures y >= 20 && (y - 20) % 20 == 0
  {
    20 + (i / 3) * 20
  }

  /** Different stores get different pin positions. */
  lemma PinPositionsDistinct(i: nat, j: nat)
    ensures PinLeft(i) == PinLeft(j) && PinTop(i) == PinTop(j) ==> i == j
  {
    if PinLeft(i) == PinLeft(j) && PinTop(i) == PinTop(j) {
      assert i % 3 == j % 3;
      assert i / 3 == j / 3;
    }
  }

  // ---------------------------------------------------------------- the sidebar

  /** The sidebar's search: name, chain or address contains the query, ignoring case. */
  predicate StoreQueryOk(q: string, s: Store) {
    || q == ""
    || Includes(Lower(s.name), Lower(q))
    || Includes(Lower(s.chain), Lower(q))
    || Includes(Lower(s.address), Lower(q))
  }

  predicate SidebarKeep(q: string, f: Filters, s: Store) {
    StoreQueryOk(q, s) && ChainOk(f, s) && RadiusOk(f, s)
  }

  function StoreQueryStage(q: string): Store -> bool { s => StoreQueryOk(q, s) }
  function SidebarStage(q: string, f: Filters): Store -> bool { s => SidebarKeep(q, f, s) }

  /** `filterStores`. */
  function SidebarStores(stores: seq<Store>, q: string, f: Filters): (r: seq<Store>)
    ensures |r| <= |stores|
    ensures forall i :: 0 <= i < |r| ==> r[i] in stores && SidebarKeep(q, f, r[i])
    ensures forall i :: 0 <= i < |stores| && SidebarKeep(q, f, stores[i]) ==> stores[i] in r
  {
    Filter(stores, SidebarStage(q, f))
  }

  /** On the page's own output with the same filters, an empty search shows every store. */
  lemma SidebarOfFilteredStores(stores: seq<Store>, f: Filters)
    ensures SidebarStores(FilteredStores(stores, f), "", f) == FilteredStores(stores, f)
  {
    FilterAll(FilteredStores(stores, f), SidebarStage("", f));
  }

  /** The sort orders: `distance` ascending, `offers` descending, `name` by a collation rank. */
  predicate KnownStoreSort(sortBy: string) {
    sortBy == "distance" || sortBy == "offers" || sortBy == "name"
  }

  function StoreKey(sortBy: string, nameRank: string -> real): Store -> real {
    (s: Store) => if sortBy == "distance" then s.distance
      else if sortBy == "offers" then -(s.offers as real)
      else if sortBy == "name" then nameRank(s.name)
      else 0.0
  }

  /** `sortStores`: a stable sort of a copy; unknown orders compare everything as equal. */
  function SortStores(stores: seq<Store>, sortBy: string, nameRank: string -> real): seq<Store> {
    if KnownStoreSort(sortBy) then SortBy(stores, StoreKey(sortBy, nameRank)) else stores
  }

  /** Every order is a permutation keeping ties in order; the two numeric orders sort as
      named; an unknown order changes nothing. */
  lemma SortStoresSpec(stores: seq<Store>, sortBy: string, nameRank: string -> real)
    ensures var r := SortStores(stores, sortBy, nameRank);
      && multiset(r) == multiset(stores)
      && (forall k :: Having(r, StoreKey(sortBy, nameRank), k) == Having(stores, StoreKey(sortBy, nameRank), k))
      && (sortBy == "distance" ==> forall i, j :: 0 <= i < j < |r| ==> r[i].distance <= r[j].distance)
      && (sortBy == "offers" ==> forall i, j :: 0 <= i < j < |r| ==> r[i].offers >= r[j].offers)
      && (!KnownStoreSort(sortBy) ==> r == stores)
  {
    if KnownStoreSort(sortBy) {
      SortBySpec(stores, StoreKey(sortBy, nameRank));
    } else {
      SortByConstant(stores, StoreKey(sortBy, nameRank));
    }
  }

  /** The sidebar: its search text and sort order are its own state. */
  class StoreListSidebar {
    var searchQuery: string
    var sortBy: string

    constructor()
      ensures searchQuery == "" && sortBy == "distance"
    {
      searchQuery := "";
      sortBy := "distance";
    }

    method Search(q: string)
      modifies this
      ensures searchQuery == q && sortBy == old(sortBy)
    {
      searchQuery := q;
    }

    method SetSort(order: string)
      modifies this
      ensures sortBy == order && searchQuery == old(searchQuery)
    {
      sortBy := order;
    }

    /** What the sidebar shows: nothing when hidden; otherwise the filtered and sorted stores,
        with their number as the count. */
    method Shown(stores: seq<Store>, f: Filters, isVisible: bool, nameRank: string -> real)
      returns (list: Option<seq<Store>>, count: nat)
      ensures !isVisible ==> list.None?
      ensures isVisible ==> list == Some(SortStores(SidebarStores(stores, searchQuery, f), sortBy, nameRank))
      ensures count == |SidebarStores(stores, searchQuery, f)|
    {
      var q := searchQuery;
      var filtered := stores;
      if q != "" {
        var lq := Lower(q);
        filtered := Filter(filtered, (s: Store) =>
          Includes(Lower(s.name), lq) || Includes(Lower(s.chain), lq) || Includes(Lower(s.address), lq));
        FilterExt(stores, (s: Store) =>
          Includes(Lower(s.name), lq) || Includes(Lower(s.chain), lq) || Includes(Lower(s.address), lq),
          StoreQueryStage(q));
      } else {
        FilterAll(stores, StoreQueryStage(q));
      }
      filtered := ChainStep(filtered, f);
      filtered := RadiusStep(filtered, f);
      var c1: Store -> bool := s => StoreQueryOk(q, s) && ChainOk(f, s);
      FilterConj(stores, StoreQueryStage(q), ChainStage(f), c1);
      FilterConj(stores, c1, RadiusStage(f), SidebarStage(q, f));
      var sorted := SortStores(filtered, sortBy, nameRank);
      SortStoresSpec(filtered, sortBy, nameRank);
      count := |sorted|;
      if isVisible {
        list := Some(sorted);
      } else {
        list := None;
      }
    }
  }

  // ---------------------------------------------------------------- the page

  datatype RouteData = RouteData(totalDistance: real, totalDuration: int, estimatedCost: real)

  class StoreMapPage {
    var mapFilters: Filters
    var selectedStore: Option<Store>
    var isBottomSheetOpen: bool
    var showSidebar: bool
    var showRoutePanel: bool
    var routeData: Option<RouteData>
    var selectedStoresForRoute: seq<Store>

    /** `wide` is whether the window is at least 1024 pixels wide. */
    constructor(wide: bool)
      ensures mapFilters == map[] && selectedStore.None? && !isBottomSheetOpen
      ensures showSidebar == wide && !showRoutePanel && routeData.None? && selectedStoresForRoute == []
    {
      mapFilters := map[];
      selectedStore := None;
      isBottomSheetOpen := false;
      showSidebar := wide;
      showRoutePanel := false;
      routeData := None;
      selectedStoresForRoute := [];
    }

    /** `handleFilterChange`: the whole filter object is replaced. */
    method FilterChange(newFilters: Filters)
      modifies this
      ensures mapFilters == newFilters
      ensures selectedStore == old(selectedStore) && isBottomSheetOpen == old(isBottomSheetOpen)
      ensures showSidebar == old(showSidebar) && showRoutePanel == old(showRoutePanel)
      ensures routeData == old(routeData) && selectedStoresForRoute == old(selectedStoresForRoute)
    {
      mapFilters := newFilters;
    }

    /** A chip toggle handed to `handleFilterChange`; a throwing toggle changes nothing. */
    method ToggleChip(c: string, x: string) returns (ok: bool)
      modifies this
      ensures ok <==> ToggleIn(old(mapFilters), c, x).Done?
      ensures ok ==> mapFilters == ToggleIn(old(mapFilters), c, x).value
      ensures !ok ==> mapFilters == old(mapFilters)
      ensures selectedStore == old(selectedStore) && isBottomSheetOpen == old(isBottomSheetOpen)
      ensures showSidebar == old(showSidebar) && showRoutePanel == old(showRoutePanel)
      ensures routeData == old(routeData) && selectedStoresForRoute == old(selectedStoresForRoute)
    {
      var r := ToggleIn(mapFilters, c, x);
      ok := r.Done?;
      if ok {
        FilterChange(r.value);
      }
    }

    /** `clearAllFilters` handed to `handleFilterChange`. */
    method ClearAllFilters()
      modifies this
      ensures mapFilters == map[]
      ensures selectedStore == old(selectedStore) && isBottomSheetOpen == old(isBottomSheetOpen)
      ensures showSidebar == old(showSidebar) && showRoutePanel == old(showRoutePanel)
      ensures routeData == old(routeData) && selectedStoresForRoute == old(selectedStoresForRoute)
    {
      FilterChange(map[]);
    }

    /** `handleStoreSelect`. */
    method StoreSelect(s: Store)
      modifies this
      ensures selectedStore == Some(s) && isBottomSheetOpen
      ensures mapFilters == old(mapFilters) && showSidebar == old(showSidebar)
      ensures showRoutePanel == old(showRoutePanel) && routeData == old(routeData)
      ensures selectedStoresForRoute == old(selectedStoresForRoute)
    {
      selectedStore := Some(s);
      isBottomSheetOpen := true;
    }

    /** `handleGetDirections`: the route holds exactly this store and the panel opens. */
    method GetDirections(s: Store, route: RouteData)
      modifies this
      ensures selectedStoresForRoute == [s] && routeData == Some(route) && showRoutePanel
      ensures mapFilters == old(mapFilters) && selectedStore == old(selectedStore)
      ensures isBottomSheetOpen == old(isBottomSheetOpen) && showSidebar == old(showSidebar)
    {
      selectedStoresForRoute := [s];
      routeData := Some(route);
      showRoutePanel := true;
    }

    method ToggleSidebar()
      modifies this
      ensures showSidebar == !old(showSidebar)
      ensures mapFilters == old(mapFilters) && selectedStore == old(selectedStore)
      ensures isBottomSheetOpen == old(isBottomSheetOpen) && showRoutePanel == old(showRoutePanel)
      ensures routeData == old(routeData) && selectedStoresForRoute == old(selectedStoresForRoute)
    {
      showSidebar := !showSidebar;
    }
  }
}
