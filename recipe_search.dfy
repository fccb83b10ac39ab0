/**
 * The recipe search page: the catalogue is narrowed stage by stage by the search query and
 * the active filters, sorted by the chosen order and paged into the grid; the page also keeps
 * the recent searches, the suggestion list and the favourite flags.
 */
module RecipeSearch {
  import opened JsText
  import opened Seqs
  import opened FilterState
  import opened TextSearch

  datatype Recipe = Recipe(
    id: int,
    title: string,
    costPerServing: real,
    rating: real,
    reviewCount: int,
    cookingTime: int,
    difficulty: string,
    servings: int,
    dietary: seq<string>,
    isFavorite: bool,
    isNew: bool)

  // ---------------------------------------------------------------- the filter stages

  /** Some tag of `tags` contains `q` once both are lower-cased. */
  predicate SomeTagIncludes(tags: seq<string>, q: string) {
    exists i :: 0 <= i < |tags| && Includes(Lower(tags[i]), Lower(q))
  }

  /** The search text matches the title or one of the dietary tags, ignoring case. */
  predicate QueryMatch(q: string, x: Recipe) {
    Includes(Lower(x.title), Lower(q)) || SomeTagIncludes(x.dietary, q)
  }

  /** The query stage: an empty query keeps every recipe. */
  predicate QueryOk(q: string, x: Recipe) {
    q == "" || QueryMatch(q, x)
  }

  /** The recipe carries at least one of the wanted tags. */
  predicate SharesTag(wanted: seq<string>, x: Recipe) {
    exists i :: 0 <= i < |wanted| && wanted[i] in x.dietary
  }

  /** The dietary stage runs when `dietary` has a positive length; a text there has no
      `some` and makes the stage throw, so it keeps nothing. */
  predicate DietaryActive(f: Filters) {
    "dietary" in f && LengthOf(f["dietary"]) > 0
  }

  predicate DietaryOk(f: Filters, x: Recipe) {
    !DietaryActive(f) || (f["dietary"].Multi? && SharesTag(f["dietary"].items, x))
  }

  /** A truthy `difficulty` keeps exact matches; a list never equals a string. */
  predicate DifficultyOk(f: Filters, x: Recipe) {
    !Set(f, "difficulty") || (f["difficulty"].Single? && x.difficulty == f["difficulty"].text)
  }

  /** A truthy `cookingTime` text is read as a `min-max` range; a list has no `split` and
      throws before any recipe is looked at. */
  predicate TimeOk(f: Filters, x: Recipe) {
    !Set(f, "cookingTime") || (f["cookingTime"].Single? && InRange(x.cookingTime as real, f["cookingTime"].text))
  }

  /** A truthy `maxPrice` keeps recipes whose cost per serving is at most its `parseFloat`. */
  predicate PriceOk(f: Filters, x: Recipe) {
    !Set(f, "maxPrice") || AtMost(x.costPerServing, ParseFloat(TextOf(f["maxPrice"])))
  }

  /** All stages together: a recipe is shown exactly when it passes every one of them. */
  predicate Keep(q: string, f: Filters, x: Recipe) {
    QueryOk(q, x) && DietaryOk(f, x) && DifficultyOk(f, x) && TimeOk(f, x) && PriceOk(f, x)
  }

  function QueryStage(q: string): Recipe -> bool { x => QueryOk(q, x) }
  function DietaryStage(f: Filters): Recipe -> bool { x => DietaryOk(f, x) }
  function DifficultyStage(f: Filters): Recipe -> bool { x => DifficultyOk(f, x) }
  function TimeStage(f: Filters): Recipe -> bool { x => TimeOk(f, x) }
  function PriceStage(f: Filters): Recipe -> bool { x => PriceOk(f, x) }
  function KeepStage(q: string, f: Filters): Recipe -> bool { x => Keep(q, f, x) }

  function Matching(catalog: seq<Recipe>, q: string, f: Filters): seq<Recipe> {
    Filter(catalog, KeepStage(q, f))
  }

  /** The recipes kept are the catalogue's recipes that pass every stage. */
  lemma MatchingMembers(catalog: seq<Recipe>, q: string, f: Filters)
    ensures forall x :: x in Matching(catalog, q, f) <==> x in catalog && Keep(q, f, x)
  {
    var m := Matching(catalog, q, f);
    forall x | x in m ensures x in catalog && Keep(q, f, x) {
      var i :| 0 <= i < |m| && m[i] == x;
    }
  }

  /** Running the stages one after the other keeps what their conjunction keeps. */
  lemma StagesCompose(catalog: seq<Recipe>, q: string, f: Filters)
    ensures Filter(Filter(Filter(Filter(Filter(catalog, QueryStage(q)), DietaryStage(f)),
      DifficultyStage(f)), TimeStage(f)), PriceStage(f)) == Matching(catalog, q, f)
  {
    var c1: Recipe -> bool := x => QueryOk(q, x) && DietaryOk(f, x);
    var c2: Recipe -> bool := x => c1(x) && DifficultyOk(f, x);
    var c3: Recipe -> bool := x => c2(x) && TimeOk(f, x);
    var c4: Recipe -> bool := x => c3(x) && PriceOk(f, x);
    FilterConj(catalog, QueryStage(q), DietaryStage(f), c1);
    FilterConj(catalog, c1, DifficultyStage(f), c2);
    FilterConj(catalog, c2, TimeStage(f), c3);
    FilterConj(catalog, c3, PriceStage(f), c4);
    FilterExt(catalog, c4, KeepStage(q, f));
  }

  /** The stages throw a TypeError when the dietary entry is a text and some recipe reaches
      it, or when the cooking-time entry is a list. */
  predicate Throws(catalog: seq<Recipe>, q: string, f: Filters) {
    || (DietaryActive(f) && f["dietary"].Single? && Filter(catalog, QueryStage(q)) != [])
    || (Set(f, "cookingTime") && f["cookingTime"].Multi?)
  }

  // ---------------------------------------------------------------- sorting

  predicate KnownSort(sort: string) {
    sort in {"price-low", "price-high", "time-short", "time-long", "rating", "newest", "popular"}
  }

  /** The comparator of each order as an ascending key: `b - a` comparators negate it, and
      `newest` compares the `isNew` flags as 1 and 0. */
  function RecipeKey(sort: string, x: Recipe): real {
    match sort
    case "price-low" => x.costPerServing
    case "price-high" => -x.costPerServing
    case "time-short" => x.cookingTime as real
    case "time-long" => -(x.cookingTime as real)
    case "rating" => -x.rating
    case "newest" => if x.isNew then -1.0 else 0.0
    case "popular" => -(x.reviewCount as real)
    case _ => 0.0
  }

  function SortKey(sort: string): Recipe -> real { x => RecipeKey(sort, x) }

  /** The `switch` over the sort order; `relevance` and unknown orders leave the list alone. */
  function SortRecipes(s: seq<Recipe>, sort: string): seq<Recipe> {
    if KnownSort(sort) then SortBy(s, SortKey(sort)) else s
  }

  /** Every order is a permutation that keeps ties in their earlier order; `relevance` and
      unknown orders change nothing. */
  lemma SortRecipesPermutes(s: seq<Recipe>, sort: string)
    ensures multiset(SortRecipes(s, sort)) == multiset(s)
    ensures forall k :: Having(SortRecipes(s, sort), SortKey(sort), k) == Having(s, SortKey(sort), k)
    ensures !KnownSort(sort) ==> SortRecipes(s, sort) == s
  {
    if KnownSort(sort) {
      SortBySpec(s, SortKey(sort));
    }
  }

  /** A known order sorts ascending by its key. */
  lemma SortRecipesSorted(s: seq<Recipe>, sort: string)
    requires KnownSort(sort)
    ensures forall i, j :: 0 <= i < j < |SortRecipes(s, sort)| ==>
      RecipeKey(sort, SortRecipes(s, sort)[i]) <= RecipeKey(sort, SortRecipes(s, sort)[j])
  {
    SortBySpec(s, SortKey(sort));
  }

  /** What each order means for the recipe fields. */
  lemma SortRecipesOrder(s: seq<Recipe>, sort: string)
    ensures var r := SortRecipes(s, sort);
      && (sort == "price-low" ==> forall i, j :: 0 <= i < j < |r| ==> r[i].costPerServing <= r[j].costPerServing)
      && (sort == "price-high" ==> forall i, j :: 0 <= i < j < |r| ==> r[i].costPerServing >= r[j].costPerServing)
      && (sort == "time-short" ==> forall i, j :: 0 <= i < j < |r| ==> r[i].cookingTime <= r[j].cookingTime)
      && (sort == "time-long" ==> forall i, j :: 0 <= i < j < |r| ==> r[i].cookingTime >= r[j].cookingTime)
      && (sort == "rating" ==> forall i, j :: 0 <= i < j < |r| ==> r[i].rating >= r[j].rating)
      && (sort == "newest" ==> forall i, j :: 0 <= i < j < |r| && r[j].isNew ==> r[i].isNew)
      && (sort == "popular" ==> forall i, j :: 0 <= i < j < |r| ==> r[i].reviewCount >= r[j].reviewCount)
  {
    if KnownSort(sort) {
      SortRecipesSorted(s, sort);
    }
  }

  /** Sorting neither adds nor drops recipes. */
  lemma SortRecipesMembers(s: seq<Recipe>, sort: string)
    ensures |SortRecipes(s, sort)| == |s|
    ensures forall x :: x in SortRecipes(s, sort) <==> x in s
  {
    SortRecipesPermutes(s, sort);
    forall x ensures x in SortRecipes(s, sort) <==> x in s {
      assert x in SortRecipes(s, sort) <==> x in multiset(SortRecipes(s, sort));
      assert x in s <==> x in multiset(s);
    }
  }

  // ---------------------------------------------------------------- the pipeline

  /** The recipes shown for a query, filters and order: the recipes that pass every stage, in
      the chosen order, or a thrown TypeError. */
  function Search(catalog: seq<Recipe>, q: string, f: Filters, sort: string): (r: Outcome<seq<Recipe>>)
    ensures r.Thrown? <==> Throws(catalog, q, f)
    ensures r.Done? ==> |r.value| <= |catalog|
    ensures r.Done? ==> forall i :: 0 <= i < |r.value| ==> r.value[i] in catalog && Keep(q, f, r.value[i])
    ensures r.Done? ==> forall i :: 0 <= i < |catalog| && Keep(q, f, catalog[i]) ==> catalog[i] in r.value
  {
    if Throws(catalog, q, f) then Thrown
    else
      var m := Matching(catalog, q, f);
      SortRecipesMembers(m, sort);
      MatchingMembers(catalog, q, f);
      Done(SortRecipes(m, sort))
  }

  /** The query stage of `loadRecipes`: runs only for a non-empty query. */
  method QueryStep(s: seq<Recipe>, q: string) returns (r: seq<Recipe>)
    ensures r == Filter(s, QueryStage(q))
  {
    r := s;
    if q != "" {
      r := Filter(r, x => QueryMatch(q, x));
      FilterExt(s, x => QueryMatch(q, x), QueryStage(q));
    } else {
      FilterAll(s, QueryStage(q));
    }
  }

  /** The dietary stage: runs when the entry has a positive length, and throws when that
      entry is a text and some recipe reaches it. */
  method DietaryStep(s: seq<Recipe>, f: Filters) returns (r: Outcome<seq<Recipe>>)
    ensures r.Thrown? <==> DietaryActive(f) && f["dietary"].Single? && s != []
    ensures r.Done? ==> r.value == Filter(s, DietaryStage(f))
  {
    if DietaryActive(f) {
      if f["dietary"].Single? {
        if s != [] {
          return Thrown;
        }
        return Done(s);
      }
      var wanted := f["dietary"].items;
      r := Done(Filter(s, x => SharesTag(wanted, x)));
      FilterExt(s, x => SharesTag(wanted, x), DietaryStage(f));
    } else {
      r := Done(s);
      FilterAll(s, DietaryStage(f));
    }
  }

  /** The difficulty stage: runs for a truthy entry. */
  method DifficultyStep(s: seq<Recipe>, f: Filters) returns (r: seq<Recipe>)
    ensures r == Filter(s, DifficultyStage(f))
  {
    r := s;
    if Set(f, "difficulty") {
      var wanted := f["difficulty"];
      r := Filter(r, (x: Recipe) => wanted.Single? && x.difficulty == wanted.text);
      FilterExt(s, (x: Recipe) => wanted.Single? && x.difficulty == wanted.text, DifficultyStage(f));
    } else {
      FilterAll(s, DifficultyStage(f));
    }
  }

  /** The cooking-time stage: runs for a truthy entry, and throws when that entry is a list. */
  method TimeStep(s: seq<Recipe>, f: Filters) returns (r: Outcome<seq<Recipe>>)
    ensures r.Thrown? <==> Set(f, "cookingTime") && f["cookingTime"].Multi?
    ensures r.Done? ==> r.value == Filter(s, TimeStage(f))
  {
    if Set(f, "cookingTime") {
      if f["cookingTime"].Multi? {
        return Thrown;
      }
      var range := f["cookingTime"].text;
      r := Done(Filter(s, (x: Recipe) => InRange(x.cookingTime as real, range)));
      FilterExt(s, (x: Recipe) => InRange(x.cookingTime as real, range), TimeStage(f));
    } else {
      r := Done(s);
      FilterAll(s, TimeStage(f));
    }
  }

  /** The price stage: runs for a truthy entry. */
  method PriceStep(s: seq<Recipe>, f: Filters) returns (r: seq<Recipe>)
    ensures r == Filter(s, PriceStage(f))
  {
    r := s;
    if Set(f, "maxPrice") {
      var limit := ParseFloat(TextOf(f["maxPrice"]));
      r := Filter(r, (x: Recipe) => AtMost(x.costPerServing, limit));
      FilterExt(s, (x: Recipe) => AtMost(x.costPerServing, limit), PriceStage(f));
    } else {
      FilterAll(s, PriceStage(f));
    }
  }

  /** The price field is a number input, which also takes exponent notation: a maximum of
      `1e1` keeps the recipes costing at most ten. */
  lemma PriceExponent(s: seq<Recipe>, f: Filters)
    requires "maxPrice" in f && f["maxPrice"] == Single("1e1")
    ensures Filter(s, PriceStage(f)) == Filter(s, (x: Recipe) => x.costPerServing <= 10.0)
  {
    ExponentOneOne();
    FilterExt(s, PriceStage(f), (x: Recipe) => x.costPerServing <= 10.0);
  }

  /** A maximum of `Infinity` keeps every recipe. */
  lemma PriceInfinityKeepsAll(s: seq<Recipe>, f: Filters)
    requires "maxPrice" in f && f["maxPrice"] == Single("Infinity")
    ensures Filter(s, PriceStage(f)) == s
  {
    InfinityLiteral();
    FilterAll(s, PriceStage(f));
  }

  /** The body of `loadRecipes`: copy the catalogue, narrow it stage by stage, then sort the
      result. */
  method ApplyRecipeFilters(catalog: seq<Recipe>, q: string, f: Filters, sort: string) returns (r: Outcome<seq<Recipe>>)
    ensures r == Search(catalog, q, f, sort)
  {
    var filtered := QueryStep(catalog, q);
    var dietary := DietaryStep(filtered, f);
    if dietary.Thrown? {
      return Thrown;
    }
    filtered := dietary.value;
    filtered := DifficultyStep(filtered, f);
    var timed := TimeStep(filtered, f);
    if timed.Thrown? {
      return Thrown;
    }
    filtered := PriceStep(timed.value, f);
    StagesCompose(catalog, q, f);
    r := Done(SortRecipes(filtered, sort));
  }

  /** With no query, no filters and the relevance order, the whole catalogue is shown in
      catalogue order. */
  lemma SearchUnfiltered(catalog: seq<Recipe>)
    ensures Search(catalog, "", map[], "relevance") == Done(catalog)
  {
    FilterAll(catalog, KeepStage("", map[]));
    assert Filter(catalog, QueryStage("")) == catalog by {
      FilterAll(catalog, QueryStage(""));
    }
  }

  /** Entries other than `dietary`, `difficulty`, `cookingTime` and `maxPrice` (cuisine,
      servings, minPrice, ...) never change what is shown. */
  lemma SearchIgnoresOtherKeys(catalog: seq<Recipe>, q: string, f: Filters, sort: string, k: string, v: FilterValue)
    requires k !in {"dietary", "difficulty", "cookingTime", "maxPrice"}
    ensures Search(catalog, q, f[k := v], sort) == Search(catalog, q, f, sort)
  {
    var g := f[k := v];
    assert forall x :: Keep(q, g, x) == Keep(q, f, x);
    FilterExt(catalog, KeepStage(q, g), KeepStage(q, f));
  }

  /** A `min-max` cooking time keeps exactly the recipes whose time lies in the closed
      interval, when the maximum is not zero. */
  lemma TimeStageBetween(f: Filters, a: string, b: string, x: Recipe)
    requires "cookingTime" in f && f["cookingTime"] == Single(a + "-" + b)
    requires a != [] && AllDigits(a) && b != [] && AllDigits(b) && DigitsValue(b) != 0
    ensures TimeOk(f, x) <==> DigitsValue(a) <= x.cookingTime <= DigitsValue(b)
  {
    InRangeBetween(x.cookingTime as real, a, b);
  }

  /** A cooking time without a maximum, such as `"30"`, keeps the recipes from that time up. */
  lemma TimeStageFrom(f: Filters, a: string, x: Recipe)
    requires "cookingTime" in f && f["cookingTime"] == Single(a)
    requires a != [] && AllDigits(a)
    ensures TimeOk(f, x) <==> DigitsValue(a) <= x.cookingTime
  {
    InRangeFrom(x.cookingTime as real, a);
  }

  /** A cooking time of the form `"120+"` has no `-`, its minimum is NaN, and no recipe is
      shown. */
  lemma SearchOpenEndedTime(catalog: seq<Recipe>, q: string, f: Filters, sort: string, d: string)
    requires "cookingTime" in f && f["cookingTime"] == Single(d + "+")
    requires AllDigits(d)
    ensures Search(catalog, q, f, sort).Done? ==> Search(catalog, q, f, sort).value == []
  {
    forall i | 0 <= i < |catalog| ensures !KeepStage(q, f)(catalog[i]) {
      InRangeOpenEnded(catalog[i].cookingTime as real, d);
    }
    FilterNone(catalog, KeepStage(q, f));
    SortRecipesMembers([], sort);
  }

  // ---------------------------------------------------------------- suggestions

  /** The fixed texts `generateSuggestions` chooses from. */
  const AllSuggestions: seq<string> := [
    "Pasta Gerichte", "Vegetarische Rezepte", "Schnelle Küche", "Gesunde Salate",
    "Italienische Küche", "Asiatische Gerichte", "Low Carb Rezepte", "Glutenfreie Optionen",
    "Vegane Küche", "Mediterrane Rezepte"]

  // ---------------------------------------------------------------- recent searches

  /** `[s, ...prev.filter(x => x !== s)].slice(0, 5)`. */
  function RecentSearches(prev: seq<string>, s: string): (r: seq<string>)
    ensures 1 <= |r| <= 5 && r[0] == s
    ensures forall i :: 1 <= i < |r| ==> r[i] != s
    ensures r[1..] <= RemoveAll(prev, s)
    ensures |r| == 5 || r[1..] == RemoveAll(prev, s)
  {
    var all := [s] + RemoveAll(prev, s);
    assert all[1..] == RemoveAll(prev, s);
    assert forall i :: 1 <= i < |all| ==> all[i] in RemoveAll(prev, s) by {
      forall i | 1 <= i < |all| ensures all[i] in RemoveAll(prev, s) {
        assert all[i] == all[1..][i - 1];
      }
    }
    Slice(all, 0, 5)
  }

  /** Selecting the same suggestion again leaves the recent searches as they are. */
  lemma RecentSearchesIdempotent(prev: seq<string>, s: string)
    ensures RecentSearches(RecentSearches(prev, s), s) == RecentSearches(prev, s)
  {
    var r := RecentSearches(prev, s);
    assert r == [s] + r[1..];
    RemoveAllAppend([s], r[1..], s);
    assert RemoveAll([s], s) == [];
    RemoveAllAbsent(r[1..], s);
    assert RemoveAll(r, s) == r[1..];
    assert [s] + RemoveAll(r, s) == r;
  }

  // ---------------------------------------------------------------- filter removal

  /** `handleRemoveFilter`: a value is removed from a list entry, which disappears once it is
      empty; any other entry under the category is deleted. */
  function FiltersWithout(f: Filters, c: string, v: string): (r: Filters)
    ensures forall k :: k != c ==> (k in r <==> k in f) && (k in f ==> r[k] == f[k])
    ensures c in r ==> c in f && f[c].Multi? && r[c].Multi? && r[c].items != [] && v !in r[c].items
    ensures c in f && f[c].Multi? && RemoveAll(f[c].items, v) != [] ==> c in r && r[c].items == RemoveAll(f[c].items, v)
    ensures c in f && f[c].Multi? ==> (c in r <==> RemoveAll(f[c].items, v) != [])
    ensures !(c in f && f[c].Multi?) ==> c !in r
  {
    if c in f && f[c].Multi? then
      var rest := RemoveAll(f[c].items, v);
      if rest == [] then f - {c} else f[c := Multi(rest)]
    else f - {c}
  }

  /** Removing the same chip twice is removing it once. */
  lemma FiltersWithoutIdempotent(f: Filters, c: string, v: string)
    ensures FiltersWithout(FiltersWithout(f, c, v), c, v) == FiltersWithout(f, c, v)
  {
    var g := FiltersWithout(f, c, v);
    if c in g {
      WithoutKeptList(g, c, v);
    } else {
      WithoutMissingKey(g, c, v);
    }
  }

  /** A non-empty list without the value loses nothing. */
  lemma WithoutKeptList(g: Filters, c: string, v: string)
    requires c in g && g[c].Multi? && g[c].items != [] && v !in g[c].items
    ensures FiltersWithout(g, c, v) == g
  {
    RemoveAllAbsent(g[c].items, v);
    assert g[c := Multi(g[c].items)] == g;
  }

  /** Removing from a category that has no entry changes nothing. */
  lemma WithoutMissingKey(g: Filters, c: string, v: string)
    requires c !in g
    ensures FiltersWithout(g, c, v) == g
  {
    assert g - {c} == g;
  }

  // ---------------------------------------------------------------- favourites

  /** `handleToggleFavorite`: flips the flag of the recipes with that id. */
  function FavoriteFlipped(s: seq<Recipe>, id: int): (r: seq<Recipe>)
    ensures |r| == |s|
    ensures forall i :: 0 <= i < |s| && s[i].id == id ==> r[i] == s[i].(isFavorite := !s[i].isFavorite)
    ensures forall i :: 0 <= i < |s| && s[i].id != id ==> r[i] == s[i]
  {
    seq(|s|, i requires 0 <= i < |s| => if s[i].id == id then s[i].(isFavorite := !s[i].isFavorite) else s[i])
  }

  lemma FavoriteFlippedTwice(s: seq<Recipe>, id: int)
    ensures FavoriteFlipped(FavoriteFlipped(s, id), id) == s
  {
  }

  // ---------------------------------------------------------------- the page

  /** The number of recipes the grid shows per page. */
  const PageSize: nat := 6

  /** The page's state: the shown recipes, the next page number, whether more can be loaded,
      the query, filters and order, and the recent searches. */
  class RecipeSearchPage {
    var recipes: seq<Recipe>
    var page: nat
    var hasMore: bool
    var searchQuery: string
    var activeFilters: Filters
    var currentSort: string
    var recentSearches: seq<string>

    constructor()
      ensures recipes == [] && page == 1 && hasMore
      ensures searchQuery == "" && activeFilters == map[] && currentSort == "relevance"
      ensures recentSearches == ["Pasta Carbonara", "Vegetarische Lasagne", "Schnelle Pfannengerichte", "Gesunde Salate"]
    {
      recipes := [];
      page := 1;
      hasMore := true;
      searchQuery := "";
      activeFilters := map[];
      currentSort := "relevance";
      recentSearches := ["Pasta Carbonara", "Vegetarische Lasagne", "Schnelle Pfannengerichte", "Gesunde Salate"];
    }

    /** `loadRecipes(reset)`: a reset shows the whole result and goes back to page one;
        otherwise the slice for the current page is appended. A thrown stage leaves the
        state alone. */
    method LoadRecipes(catalog: seq<Recipe>, reset: bool) returns (ok: bool)
      modifies this
      ensures var s := Search(catalog, old(searchQuery), old(activeFilters), old(currentSort));
        && ok == s.Done?
        && (!ok ==> recipes == old(recipes) && page == old(page) && hasMore == old(hasMore))
        && (ok && reset ==> recipes == s.value && page == 1 && hasMore == (|s.value| > PageSize))
        && (ok && !reset ==>
              && recipes == old(recipes) + Slice(s.value, old(page) * PageSize, (old(page) + 1) * PageSize)
              && page == old(page) && hasMore == (|s.value| > (old(page) + 1) * PageSize))
      ensures searchQuery == old(searchQuery) && activeFilters == old(activeFilters)
      ensures currentSort == old(currentSort) && recentSearches == old(recentSearches)
    {
      var r := ApplyRecipeFilters(catalog, searchQuery, activeFilters, currentSort);
      if r.Thrown? {
        return false;
      }
      if reset {
        recipes := r.value;
        page := 1;
        hasMore := |r.value| > PageSize;
      } else {
        recipes := recipes + Slice(r.value, page * PageSize, (page + 1) * PageSize);
        hasMore := |r.value| > (page + 1) * PageSize;
      }
      ok := true;
    }

    /** `handleLoadMore`: the page number moves on, but the load that follows still sees the
        page number it was created with. */
    method LoadMore(catalog: seq<Recipe>) returns (ok: bool)
      modifies this
      ensures page == old(page) + 1
      ensures var s := Search(catalog, old(searchQuery), old(activeFilters), old(currentSort));
        && ok == s.Done?
        && (!ok ==> recipes == old(recipes) && hasMore == old(hasMore))
        && (ok ==>
              && recipes == old(recipes) + Slice(s.value, old(page) * PageSize, (old(page) + 1) * PageSize)
              && hasMore == (|s.value| > (old(page) + 1) * PageSize))
      ensures searchQuery == old(searchQuery) && activeFilters == old(activeFilters)
      ensures currentSort == old(currentSort) && recentSearches == old(recentSearches)
    {
      var stale := page;
      page := page + 1;
      var r := ApplyRecipeFilters(catalog, searchQuery, activeFilters, currentSort);
      if r.Thrown? {
        return false;
      }
      recipes := recipes + Slice(r.value, stale * PageSize, (stale + 1) * PageSize);
      hasMore := |r.value| > (stale + 1) * PageSize;
      ok := true;
    }

    /** `handleSuggestionSelect`. */
    method SuggestionSelect(suggestion: string)
      modifies this
      ensures searchQuery == suggestion
      ensures recentSearches == RecentSearches(old(recentSearches), suggestion)
      ensures recipes == old(recipes) && page == old(page) && hasMore == old(hasMore)
      ensures activeFilters == old(activeFilters) && currentSort == old(currentSort)
    {
      searchQuery := suggestion;
      recentSearches := RecentSearches(recentSearches, suggestion);
    }

    /** `handleFilterChange`: the panel's filters replace the active ones. */
    method FilterChange(filters: Filters)
      modifies this
      ensures activeFilters == filters
      ensures recipes == old(recipes) && page == old(page) && hasMore == old(hasMore)
      ensures searchQuery == old(searchQuery) && currentSort == old(currentSort)
      ensures recentSearches == old(recentSearches)
    {
      activeFilters := filters;
    }

    /** `handleRemoveFilter`. */
    method RemoveFilter(category: string, value: string)
      modifies this
      ensures activeFilters == FiltersWithout(old(activeFilters), category, value)
      ensures recipes == old(recipes) && page == old(page) && hasMore == old(hasMore)
      ensures searchQuery == old(searchQuery) && currentSort == old(currentSort)
      ensures recentSearches == old(recentSearches)
    {
      activeFilters := FiltersWithout(activeFilters, category, value);
    }

    /** `handleClearAllFilters`. */
    method ClearAllFilters()
      modifies this
      ensures activeFilters == map[]
      ensures recipes == old(recipes) && page == old(page) && hasMore == old(hasMore)
      ensures searchQuery == old(searchQuery) && currentSort == old(currentSort)
      ensures recentSearches == old(recentSearches)
    {
      activeFilters := map[];
    }

    /** `handleToggleFavorite`. */
    method ToggleFavorite(id: int)
      modifies this
      ensures recipes == FavoriteFlipped(old(recipes), id)
      ensures page == old(page) && hasMore == old(hasMore)
      ensures searchQuery == old(searchQuery) && activeFilters == old(activeFilters)
      ensures currentSort == old(currentSort) && recentSearches == old(recentSearches)
    {
      recipes := FavoriteFlipped(recipes, id);
    }
  }
}
