/**
 * The local-offers page: supermarket offers narrowed by a search text, a category chip and
 * the filter panel's price range and distance; grouped by store for the store view; counted
 * per category for the chips; and updated by the favourite and price-alert actions.
 */
module LocalOffers {
  import opened JsText
  import opened Seqs
  import opened FilterState
  import FilterPanels

  datatype Offer = Offer(
    id: int,
    productName: string,
    originalPrice: real,
    discountedPrice: real,
    discountPercentage: int,
    storeName: string,
    category: string,
    unit: string,
    isFavorite: bool,
    hasAlert: bool,
    distance: real)

  /** The chip categories, in display order. */
  const CategoryIds: seq<string> := ["produce", "meat", "dairy", "pantry", "frozen", "beverages"]

  /** `categoryMap`: only four of the six chip categories have an offer category. */
  function CategoryName(id: string): (n: Option<string>)
    ensures n.Some? <==> id in {"produce", "meat", "dairy", "pantry"}
  {
    match id
    case "produce" => Some("Obst & Gemüse")
    case "meat" => Some("Fleisch & Wurst")
    case "dairy" => Some("Milchprodukte")
    case "pantry" => Some("Grundnahrungsmittel")
    case _ => None
  }

  /** The active category is truthy: present and not empty. */
  predicate CategoryOn(active: Option<string>) {
    active.Some? && active.value != ""
  }

  /** `offer.category === categoryMap[id]`: an unmapped id is `undefined` and equals no
      category. */
  predicate InCategory(id: string, o: Offer) {
    CategoryName(id).Some? && o.category == CategoryName(id).value
  }

  // ---------------------------------------------------------------- the filter stages

  predicate OfferQueryOk(q: string, o: Offer) {
    || q == ""
    || Includes(Lower(o.productName), Lower(q))
    || Includes(Lower(o.category), Lower(q))
    || Includes(Lower(o.storeName), Lower(q))
  }

  predicate CategoryOk(active: Option<string>, o: Offer) {
    !CategoryOn(active) || InCategory(active.value, o)
  }

  /** A truthy `priceRange` text is read as a `min-max` range on the discounted price. */
  predicate PriceRangeOk(f: Filters, o: Offer) {
    !Set(f, "priceRange") || (f["priceRange"].Single? && InRange(o.discountedPrice, f["priceRange"].text))
  }

  /** A truthy `distance` keeps offers at most that far away. */
  predicate DistanceOk(f: Filters, o: Offer) {
    !Set(f, "distance") || AtMost(o.distance, ParseFloat(TextOf(f["distance"])))
  }

  predicate OfferKeep(q: string, active: Option<string>, f: Filters, o: Offer) {
    OfferQueryOk(q, o) && CategoryOk(active, o) && PriceRangeOk(f, o) && DistanceOk(f, o)
  }

  function OfferQueryStage(q: string): Offer -> bool { o => OfferQueryOk(q, o) }
  function CategoryStage(active: Option<string>): Offer -> bool { o => CategoryOk(active, o) }
  function PriceRangeStage(f: Filters): Offer -> bool { o => PriceRangeOk(f, o) }
  function DistanceStage(f: Filters): Offer -> bool { o => DistanceOk(f, o) }
  function OfferKeepStage(q: string, active: Option<string>, f: Filters): Offer -> bool {
    o => OfferKeep(q, active, f, o)
  }

  /** A price range that is a list has no `split` and throws. */
  predicate OffersThrow(f: Filters) {
    Set(f, "priceRange") && f["priceRange"].Multi?
  }

  /** The offers shown: those passing every stage, in their original order. */
  function FilteredOffers(offers: seq<Offer>, q: string, active: Option<string>, f: Filters): (r: Outcome<seq<Offer>>)
    ensures r.Thrown? <==> OffersThrow(f)
    ensures r.Done? ==> forall i :: 0 <= i < |r.value| ==> r.value[i] in offers && OfferKeep(q, active, f, r.value[i])
    ensures r.Done? ==> forall i :: 0 <= i < |offers| && OfferKeep(q, active, f, offers[i]) ==> offers[i] in r.value
  {
    if OffersThrow(f) then Thrown else Done(Filter(offers, OfferKeepStage(q, active, f)))
  }

  lemma StagesCompose(offers: seq<Offer>, q: string, active: Option<string>, f: Filters)
    ensures Filter(Filter(Filter(Filter(offers, OfferQueryStage(q)), CategoryStage(active)),
      PriceRangeStage(f)), DistanceStage(f)) == Filter(offers, OfferKeepStage(q, active, f))
  {
    var c1: Offer -> bool := o => OfferQueryOk(q, o) && CategoryOk(active, o);
    var c2: Offer -> bool := o => c1(o) && PriceRangeOk(f, o);
    var c3: Offer -> bool := o => c2(o) && DistanceOk(f, o);
    FilterConj(offers, OfferQueryStage(q), CategoryStage(active), c1);
    FilterConj(offers, c1, PriceRangeStage(f), c2);
    FilterConj(offers, c2, DistanceStage(f), c3);
    FilterExt(offers, c3, OfferKeepStage(q, active, f));
  }

  method QueryStep(s: seq<Offer>, q: string) returns (r: seq<Offer>)
    ensures r == Filter(s, OfferQueryStage(q))
  {
    r := s;
    if q != "" {
      var lq := Lower(q);
      r := Filter(r, (o: Offer) =>
        Includes(Lower(o.productName), lq) || Includes(Lower(o.category), lq) || Includes(Lower(o.storeName), lq));
      FilterExt(s, (o: Offer) =>
        Includes(Lower(o.productName), lq) || Includes(Lower(o.category), lq) || Includes(Lower(o.storeName), lq),
        OfferQueryStage(q));
    } else {
      FilterAll(s, OfferQueryStage(q));
    }
  }

  method CategoryStep(s: seq<Offer>, active: Option<string>) returns (r: seq<Offer>)
    ensures r == Filter(s, CategoryStage(active))
  {
    r := s;
    if CategoryOn(active) {
      var name := CategoryName(active.value);
      r := Filter(r, (o: Offer) => name.Some? && o.category == name.value);
      FilterExt(s, (o: Offer) => name.Some? && o.category == name.value, CategoryStage(active));
    } else {
      FilterAll(s, CategoryStage(active));
    }
  }

  method PriceRangeStep(s: seq<Offer>, f: Filters) returns (r: Outcome<seq<Offer>>)
    ensures r.Thrown? <==> OffersThrow(f)
    ensures r.Done? ==> r.value == Filter(s, PriceRangeStage(f))
  {
    if Set(f, "priceRange") {
      if f["priceRange"].Multi? {
        return Thrown;
      }
      var range := f["priceRange"].text;
      r := Done(Filter(s, (o: Offer) => InRange(o.discountedPrice, range)));
      FilterExt(s, (o: Offer) => InRange(o.discountedPrice, range), PriceRangeStage(f));
    } else {
      r := Done(s);
      FilterAll(s, PriceRangeStage(f));
    }
  }

  method DistanceStep(s: seq<Offer>, f: Filters) returns (r: seq<Offer>)
    ensures r == Filter(s, DistanceStage(f))
  {
    r := s;
    if Set(f, "distance") {
      var maxDistance := ParseFloat(TextOf(f["distance"]));
      r := Filter(r, (o: Offer) => AtMost(o.distance, maxDistance));
      FilterExt(s, (o: Offer) => AtMost(o.distance, maxDistance), DistanceStage(f));
    } else {
      FilterAll(s, DistanceStage(f));
    }
  }

  /** `applyFilters`: copy the offers and narrow them stage by stage. */
  method ApplyFilters(offers: seq<Offer>, q: string, active: Option<string>, f: Filters) returns (r: Outcome<seq<Offer>>)
    ensures r == FilteredOffers(offers, q, active, f)
  {
    var filtered := QueryStep(offers, q);
    filtered := CategoryStep(filtered, active);
    var priced := PriceRangeStep(filtered, f);
    if priced.Thrown? {
      return Thrown;
    }
    filtered := DistanceStep(priced.value, f);
    StagesCompose(offers, q, active, f);
    r := Done(filtered);
  }

  /** A category id without a `categoryMap` entry (`frozen`, `beverages`) shows no offer. */
  lemma UnmappedCategoryShowsNothing(offers: seq<Offer>, q: string, id: string, f: Filters)
    requires id != "" && CategoryName(id).None?
    ensures FilteredOffers(offers, q, Some(id), f).Done? ==> FilteredOffers(offers, q, Some(id), f).value == []
  {
    FilterNone(offers, OfferKeepStage(q, Some(id), f));
  }

  /** With no query, category or filters every offer is shown, in order. */
  lemma UnfilteredShowsAll(offers: seq<Offer>)
    ensures FilteredOffers(offers, "", None, map[]) == Done(offers)
  {
    FilterAll(offers, OfferKeepStage("", None, map[]));
  }

  /** A bounded range of two decimal literals, as the panel's default price ranges are. */
  lemma BoundedRange(x: real, a: string, b: string, lo: nat, hi: nat)
    requires a != [] && b != [] && AllDigits(a) && AllDigits(b)
    requires DigitsValue(a) == lo && DigitsValue(b) == hi && hi != 0
    ensures InRange(x, a + "-" + b) <==> lo as real <= x <= hi as real
  {
    InRangeBetween(x, a, b);
  }

  lemma TwoDigits(s: string)
    requires |s| == 2 && AllDigits(s)
    ensures DigitsValue(s) == 10 * DigitValue(s[0]) + DigitValue(s[1])
  {
    var d := s[..1];
    assert d[..|d| - 1] == [] && d[|d| - 1] == s[0];
    assert DigitsValue(d) == DigitValue(s[0]);
  }

  lemma RangeZeroToFive(x: real)
    ensures InRange(x, "0-5") <==> 0.0 <= x <= 5.0
  {
    assert DigitsValue("0") == 0 && DigitsValue("5") == 5;
    assert "0-5" == "0" + "-" + "5";
    BoundedRange(x, "0", "5", 0, 5);
  }

  lemma RangeTwentyPlus(x: real)
    ensures !InRange(x, "20+")
  {
    assert "20+" == "20" + "+";
    InRangeOpenEnded(x, "20");
  }

  lemma RangeFiveToTen(x: real)
    ensures InRange(x, "5-10") <==> 5.0 <= x <= 10.0
  {
    TwoDigits("10");
    var t := "5" + "-" + "10";
    assert t == "5-10" by {
      assert |t| == 4 && t[0] == '5' && t[1] == '-' && t[2] == '1' && t[3] == '0';
    }
    BoundedRange(x, "5", "10", 5, 10);
  }

  lemma RangeTenToTwenty(x: real)
    ensures InRange(x, "10-20") <==> 10.0 <= x <= 20.0
  {
    TwoDigits("10");
    TwoDigits("20");
    var t := "10" + "-" + "20";
    assert t == "10-20" by {
      assert |t| == 5 && t[0] == '1' && t[1] == '0' && t[2] == '-' && t[3] == '2' && t[4] == '0';
    }
    BoundedRange(x, "10", "20", 10, 20);
  }

  /** The panel's default price ranges (`0-5`, `5-10`, `10-20`, `20+`): the three bounded
      ones keep the closed interval of discounted prices, and `20+` keeps nothing. */
  lemma DefaultPriceRanges(x: real)
    ensures FilterPanels.Values(FilterPanels.DefaultPriceRanges) == ["0-5", "5-10", "10-20", "20+"]
    ensures InRange(x, "0-5") <==> 0.0 <= x <= 5.0
    ensures InRange(x, "5-10") <==> 5.0 <= x <= 10.0
    ensures InRange(x, "10-20") <==> 10.0 <= x <= 20.0
    ensures !InRange(x, "20+")
  {
    FilterPanels.DefaultPriceValues();
    RangeZeroToFive(x);
    RangeFiveToTen(x);
    RangeTenToTwenty(x);
    RangeTwentyPlus(x);
  }

  // ---------------------------------------------------------------- store groups

  /** One entry of the store view: the store's name as id and name, the distance of its first
      offer, and its offers. */
  datatype StoreGroup = StoreGroup(id: string, name: string, distance: real, offers: seq<Offer>)

  function StoreOf(o: Offer): string { o.storeName }

  function ToStoreGroup(g: Group<Offer>): StoreGroup {
    if g.items == [] then StoreGroup(g.key, g.key, 0.0, [])
    else StoreGroup(g.key, g.items[0].storeName, g.items[0].distance, g.items)
  }

  function ToStoreGroups(gs: seq<Group<Offer>>): (r: seq<StoreGroup>)
    ensures |r| == |gs| && forall j :: 0 <= j < |gs| ==> r[j] == ToStoreGroup(gs[j])
  {
    if gs == [] then [] else [ToStoreGroup(gs[0])] + ToStoreGroups(gs[1..])
  }

  function GroupDistance(g: StoreGroup): real { g.distance }
  function GroupId(g: StoreGroup): string { g.id }

  /** The store view: group the shown offers by store, then sort the groups by distance. */
  function StoreGroups(filtered: seq<Offer>): seq<StoreGroup> {
    SortBy(ToStoreGroups(GroupsOf(filtered, StoreOf)), GroupDistance)
  }

  /** `groupOffersByStore`: the grouping `reduce`, then the sort of the object's values. */
  method GroupOffersByStore(filtered: seq<Offer>) returns (groups: seq<StoreGroup>)
    ensures groups == StoreGroups(filtered)
  {
    var grouped := GroupBy(filtered, StoreOf);
    groups := SortBy(ToStoreGroups(grouped), GroupDistance);
  }

  /** The store ids of the groups, in order. */
  function StoreIds(groups: seq<StoreGroup>): (ids: seq<string>)
    ensures |ids| == |groups| && forall j :: 0 <= j < |groups| ==> ids[j] == groups[j].id
  {
    if groups == [] then [] else [groups[0].id] + StoreIds(groups[1..])
  }

  /** The groups are sorted by distance and no store appears twice. */
  lemma StoreGroupsOrder(filtered: seq<Offer>)
    ensures var groups := StoreGroups(filtered);
      && (forall i, j :: 0 <= i < j < |groups| ==> groups[i].distance <= groups[j].distance)
      && (forall i, j :: 0 <= i < j < |groups| ==> groups[i].id != groups[j].id)
  {
    var gs := GroupsOf(filtered, StoreOf);
    GroupsOfSpec(filtered, StoreOf);
    var vals := ToStoreGroups(gs);
    SortBySpec(vals, GroupDistance);
    assert DistinctBy(vals, GroupId) by {
      forall i, j | 0 <= i < j < |vals| ensures vals[i].id != vals[j].id {
        assert Keys(gs)[i] == gs[i].key && Keys(gs)[j] == gs[j].key;
      }
    }
    SortByDistinct(vals, GroupDistance, GroupId);
  }

  /** What a group of the store view says about the shown offers. */
  ghost predicate GroupFacts(filtered: seq<Offer>, g: StoreGroup) {
    && g.offers != []
    && g.offers == Having(filtered, StoreOf, g.id)
    && g.name == g.id
    && g.distance == g.offers[0].distance
  }

  /** A grouping entry that holds the offers of its store becomes a group with those facts. */
  lemma ToStoreGroupFacts(filtered: seq<Offer>, g: Group<Offer>)
    requires g.items != [] && g.items == Having(filtered, StoreOf, g.key)
    ensures GroupFacts(filtered, ToStoreGroup(g))
  {
    var first := g.items[0];
    assert first in Having(filtered, StoreOf, g.key);
    HavingIn(filtered, StoreOf, g.key, first);
  }

  /** Every value of the grouping object has those facts. */
  lemma ValuesFacts(filtered: seq<Offer>)
    ensures forall m :: 0 <= m < |ToStoreGroups(GroupsOf(filtered, StoreOf))| ==>
      GroupFacts(filtered, ToStoreGroups(GroupsOf(filtered, StoreOf))[m])
  {
    var gs := GroupsOf(filtered, StoreOf);
    GroupsOfHaving(filtered, StoreOf);
    forall m | 0 <= m < |gs| ensures GroupFacts(filtered, ToStoreGroups(gs)[m]) {
      ToStoreGroupFacts(filtered, gs[m]);
    }
  }

  /** Sorting keeps a property every element has. */
  lemma SortByKeeps(vals: seq<StoreGroup>, filtered: seq<Offer>)
    requires forall m :: 0 <= m < |vals| ==> GroupFacts(filtered, vals[m])
    ensures forall j :: 0 <= j < |SortBy(vals, GroupDistance)| ==> GroupFacts(filtered, SortBy(vals, GroupDistance)[j])
  {
    var groups := SortBy(vals, GroupDistance);
    forall j | 0 <= j < |groups| ensures GroupFacts(filtered, groups[j]) {
      assert groups[j] in multiset(vals);
    }
  }

  /** Every group is non-empty, holds exactly the shown offers of its store in their order,
      and takes its name and distance from its first offer. */
  lemma StoreGroupsContents(filtered: seq<Offer>)
    ensures var groups := StoreGroups(filtered);
      forall j :: 0 <= j < |groups| ==>
        && groups[j].offers != []
        && groups[j].offers == Having(filtered, StoreOf, groups[j].id)
        && groups[j].name == groups[j].id
        && groups[j].distance == groups[j].offers[0].distance
  {
    ValuesFacts(filtered);
    SortByKeeps(ToStoreGroups(GroupsOf(filtered, StoreOf)), filtered);
  }

  /** A key of the grouping object is the id of some value, and so of some sorted group. */
  lemma KeyInStoreIds(gs: seq<Group<Offer>>, k: string)
    requires k in Keys(gs)
    ensures k in StoreIds(SortBy(ToStoreGroups(gs), GroupDistance))
  {
    var vals := ToStoreGroups(gs);
    var groups := SortBy(vals, GroupDistance);
    var m :| 0 <= m < |gs| && Keys(gs)[m] == k;
    assert vals[m] in multiset(groups);
    var j :| 0 <= j < |groups| && groups[j] == vals[m];
    assert StoreIds(groups)[j] == k;
  }

  /** Every shown offer's store has a group. */
  lemma StoreGroupsCover(filtered: seq<Offer>)
    ensures forall i :: 0 <= i < |filtered| ==> filtered[i].storeName in StoreIds(StoreGroups(filtered))
  {
    var gs := GroupsOf(filtered, StoreOf);
    GroupsOfKeys(filtered, StoreOf);
    forall i | 0 <= i < |filtered| ensures filtered[i].storeName in StoreIds(StoreGroups(filtered)) {
      assert StoreOf(filtered[i]) in Keys(gs);
      KeyInStoreIds(gs, filtered[i].storeName);
    }
  }

  /** An offer lies in a group exactly when the group is its store's. */
  lemma OfferInItsStoreGroup(filtered: seq<Offer>, j: nat, o: Offer)
    requires j < |StoreGroups(filtered)|
    requires o in filtered
    ensures o in StoreGroups(filtered)[j].offers <==> StoreGroups(filtered)[j].id == o.storeName
  {
    StoreGroupsContents(filtered);
    HavingIn(filtered, StoreOf, StoreGroups(filtered)[j].id, o);
  }

  // ---------------------------------------------------------------- chip counts

  /** The number of offers in one chip category, over all offers. */
  function CountFor(offers: seq<Offer>, id: string): nat {
    |Filter(offers, (o: Offer) => InCategory(id, o))|
  }

  /** `getResultCounts`: one count per chip category, over the full offer list. */
  method GetResultCounts(offers: seq<Offer>, ids: seq<string>) returns (counts: map<string, nat>)
    ensures forall id :: id in counts <==> id in ids
    ensures forall id :: id in counts ==> counts[id] == CountFor(offers, id)
  {
    counts := map[];
    var i := 0;
    while i < |ids|
      invariant 0 <= i <= |ids|
      invariant forall id :: id in counts <==> id in ids[..i]
      invariant forall id :: id in counts ==> counts[id] == CountFor(offers, id)
    {
      var name := CategoryName(ids[i]);
      counts := counts[ids[i] := |Filter(offers, (o: Offer) => name.Some? && o.category == name.value)|];
      FilterExt(offers, (o: Offer) => name.Some? && o.category == name.value, (o: Offer) => InCategory(ids[i], o));
      assert ids[..i + 1] == ids[..i] + [ids[i]];
      i := i + 1;
    }
    assert ids[..i] == ids;
  }

  /** A chip's count is the number of offers clicking it shows when there is no query and no
      filter; an unmapped category counts zero. */
  lemma CountIsShownOffers(offers: seq<Offer>, id: string)
    requires id != ""
    ensures FilteredOffers(offers, "", Some(id), map[]) == Done(Filter(offers, (o: Offer) => InCategory(id, o)))
    ensures CategoryName(id).None? ==> CountFor(offers, id) == 0
  {
    FilterExt(offers, OfferKeepStage("", Some(id), map[]), (o: Offer) => InCategory(id, o));
    if CategoryName(id).None? {
      FilterNone(offers, (o: Offer) => InCategory(id, o));
    }
  }

  /** `handleChipClick`: clicking the active chip clears the category, any other chip
      selects it. */
  function ChipClick(active: Option<string>, id: string): (r: Option<string>)
    ensures active == Some(id) ==> r == None
    ensures active != Some(id) ==> r == Some(id)
  {
    if active == Some(id) then None else Some(id)
  }

  /** From any state, clicking the same chip twice ends with no category when the chip was
      not active, and with that chip when it was. */
  lemma ChipClickTwice(active: Option<string>, id: string)
    ensures active != Some(id) ==> ChipClick(ChipClick(active, id), id) == None
    ensures active == Some(id) ==> ChipClick(ChipClick(active, id), id) == Some(id)
  {
  }

  /** `resultCounts[id] || 0`; the badge shows only a positive count. */
  function ChipCount(counts: map<string, nat>, id: string): (n: nat)
    ensures id !in counts ==> n == 0
    ensures id in counts ==> n == counts[id]
  {
    if id in counts then counts[id] else 0
  }

  // ---------------------------------------------------------------- offer updates

  /** `handleToggleFavorite`. */
  function FlipFavorite(offers: seq<Offer>, id: int): (r: seq<Offer>)
    ensures |r| == |offers|
    ensures forall i :: 0 <= i < |offers| && offers[i].id == id ==>
      r[i] == offers[i].(isFavorite := !offers[i].isFavorite)
    ensures forall i :: 0 <= i < |offers| && offers[i].id != id ==> r[i] == offers[i]
  {
    seq(|offers|, i requires 0 <= i < |offers| =>
      if offers[i].id == id then offers[i].(isFavorite := !offers[i].isFavorite) else offers[i])
  }

  lemma FlipFavoriteTwice(offers: seq<Offer>, id: int)
    ensures FlipFavorite(FlipFavorite(offers, id), id) == offers
  {
  }

  /** `handleCreatePriceAlert`. */
  function SetAlert(offers: seq<Offer>, id: int): (r: seq<Offer>)
    ensures |r| == |offers|
    ensures forall i :: 0 <= i < |offers| && offers[i].id == id ==> r[i] == offers[i].(hasAlert := true)
    ensures forall i :: 0 <= i < |offers| && offers[i].id != id ==> r[i] == offers[i]
  {
    seq(|offers|, i requires 0 <= i < |offers| => if offers[i].id == id then offers[i].(hasAlert := true) else offers[i])
  }

  lemma SetAlertIdempotent(offers: seq<Offer>, id: int)
    ensures SetAlert(SetAlert(offers, id), id) == SetAlert(offers, id)
  {
  }

  // ---------------------------------------------------------------- active-filter count

  /** `filters?.x?.length`, or zero when absent. */
  function LengthIn(f: Filters, c: string): nat {
    if c in f then LengthOf(f[c]) else 0
  }

  /** `getActiveFilterCount`: one for the category chip, one each for a truthy price range
      and distance, and the lengths of the category and dietary selections. */
  function ActiveFilterCount(active: Option<string>, f: Filters): (n: nat)
    ensures n >= LengthIn(f, "categories") + LengthIn(f, "dietary")
    ensures n == 0 <==>
      && !CategoryOn(active) && !Set(f, "priceRange") && !Set(f, "distance")
      && LengthIn(f, "categories") == 0 && LengthIn(f, "dietary") == 0
  {
    (if CategoryOn(active) then 1 else 0)
    + (if Set(f, "priceRange") then 1 else 0)
    + (if Set(f, "distance") then 1 else 0)
    + LengthIn(f, "categories")
    + LengthIn(f, "dietary")
  }

  // ---------------------------------------------------------------- the page

  class LocalOffersPage {
    var offers: seq<Offer>
    var filteredOffers: seq<Offer>
    var searchQuery: string
    var activeCategory: Option<string>
    var filters: Filters

    constructor(mock: seq<Offer>)
      ensures offers == mock && filteredOffers == mock
      ensures searchQuery == "" && activeCategory == None && filters == map[]
    {
      offers := mock;
      filteredOffers := mock;
      searchQuery := "";
      activeCategory := None;
      filters := map[];
    }

    /** The effect that re-runs `applyFilters`. `ok` is false exactly when a stage throws; an
        error thrown in an effect reaches the error boundary, which replaces the page, and the
        model then keeps the old shown offers, which are no longer on screen. */
    method Refilter() returns (ok: bool)
      modifies this
      ensures var r := FilteredOffers(old(offers), old(searchQuery), old(activeCategory), old(filters));
        && ok == r.Done?
        && filteredOffers == (if ok then r.value else old(filteredOffers))
      ensures offers == old(offers) && searchQuery == old(searchQuery)
      ensures activeCategory == old(activeCategory) && filters == old(filters)
    {
      var r := ApplyFilters(offers, searchQuery, activeCategory, filters);
      ok := r.Done?;
      if ok {
        filteredOffers := r.value;
      }
    }

    /** `onCategoryChange(handleChipClick(id))`. */
    method ClickChip(id: string)
      modifies this
      ensures activeCategory == ChipClick(old(activeCategory), id)
      ensures offers == old(offers) && filteredOffers == old(filteredOffers)
      ensures searchQuery == old(searchQuery) && filters == old(filters)
    {
      activeCategory := ChipClick(activeCategory, id);
    }

    method ToggleFavorite(id: int)
      modifies this
      ensures offers == FlipFavorite(old(offers), id)
      ensures filteredOffers == old(filteredOffers) && searchQuery == old(searchQuery)
      ensures activeCategory == old(activeCategory) && filters == old(filters)
    {
      offers := FlipFavorite(offers, id);
    }

    method CreatePriceAlert(offerId: int)
      modifies this
      ensures offers == SetAlert(old(offers), offerId)
      ensures filteredOffers == old(filteredOffers) && searchQuery == old(searchQuery)
      ensures activeCategory == old(activeCategory) && filters == old(filters)
    {
      offers := SetAlert(offers, offerId);
    }

    /** `handleFilterApply`. */
    method FilterApply(newFilters: Filters)
      modifies this
      ensures filters == newFilters
      ensures offers == old(offers) && filteredOffers == old(filteredOffers)
      ensures searchQuery == old(searchQuery) && activeCategory == old(activeCategory)
    {
      filters := newFilters;
    }

    /** `handleFilterReset`: clears the filters and the category, so the count drops to 0. */
    method FilterReset()
      modifies this
      ensures filters == map[] && activeCategory == None
      ensures ActiveFilterCount(activeCategory, filters) == 0
      ensures offers == old(offers) && filteredOffers == old(filteredOffers)
      ensures searchQuery == old(searchQuery)
    {
      filters := map[];
      activeCategory := None;
    }
  }
}
