# SparKoch logic, modelled in Dafny

SparKoch is a German meal-planning and grocery-saving web app written in React. It runs entirely on mock data. This project models the synchronous logic behind its pages and proves what that logic guarantees:

- **Recipe search** (`recipe_search.dfy`, `text_search.dfy`, `recipe_filter_chips.dfy`). The catalogue is narrowed by the query and the active filters, sorted stably and paged. The page also keeps the recent searches and the suggestions, and turns the filters into chips.
- **Filter panels** (`filter_state.dfy`, `filter_panels.dfy`). A filter state is a JavaScript object from categories to either a list or a single value. The two panels edit a local copy of it checkbox by checkbox, and the page's "remove filter" and active-filter count read it.
- **Local offers** (`local_offers.dfy`). Offers are narrowed by text, category chip, price range and distance, grouped by store and counted per category. The favourite and price-alert actions update them.
- **Store map** (`store_map.dfy`, `route_panel.dfy`). The page, the sidebar and the map each filter the stores. The sidebar also sorts them. The filter chips and the route panel complete the page.
- **Shopping list** (`shopping_list.dfy`). The list has totals, two grouped views and id-keyed updaters. An item row keeps its own quantity, and a form adds items by hand.
- **Registration wizard** (`onboarding.dfy`, `onboarding_container.dfy`, `account_setup.dfy`, `location_setup.dfy`, `dietary_preferences.dfy`, `budget_setup.dfy`). The wizard has a step counter and a gate per step. Each step has its own validators, error messages and form updaters.
- **Home page** (`dashboard.dfy`, `notification_banner.dfy`, `savings_summary.dfy`, `meal_plan_hero.dfy`). This covers notification dismissal, favourite flags, the savings card and the meal-plan carousel.

Two modules are shared by the rest:

- `seqs.dfy` covers JavaScript's `filter`, summing `reduce`s, the stable `sort`, and grouping into an object whose keys keep their insertion order.
- `js_text.dfy` covers the JavaScript string and number primitives the pages rely on: `toLowerCase`, `includes`, `trim`, `split`, `Number`, `parseFloat`, `parseInt`, truthiness and integer rendering. `Number` and `parseFloat` follow the string-to-number grammar of section 7.1.4.1 of ECMA-262, including exponents and `Infinity`; `Number` also reads `0x`, `0o` and `0b` literals.

Components whose state the source updates in place are classes. Their methods modify that state and are specified against the pure functions beside them. Expressions over lists and records are functions with lemmas.

Prices, distances and percentages are exact reals. Counts are integers.

A JavaScript object used as a map keeps its string keys in insertion order, except that keys which look like array indices (`"3"`) come first in ascending order. Where that order matters, it is passed explicitly as a sequence of keys. The objects grouped by key here are keyed by store names and category ids, none of which looks like an index, so their groups come in first-seen order.

Operations that can throw in JavaScript return an outcome that records the throw. For example, `.filter` on a filter value that is a string rather than a list throws. What a throw does to the page depends on where it happens. A throw in an event handler leaves the state as it was, as with the map's filter chips. A throw in a state updater or an effect reaches the error boundary around the routes, which replaces the page with its error screen; see "Left out". A throw in the asynchronous `loadRecipes` only rejects its promise.

Several behaviours are reproduced exactly as the source has them:

- A `20+` or `120+` range matches nothing, because `Number("20+")` is NaN.
- Offer categories with no entry in the category table match nothing.
- MapContainer's own store test ignores the radius once chains are selected. The page hands the map stores it has already narrowed by radius, so the pins still respect it.
- The wizard's own gates are weaker than the steps' validators.
- Checking a checkbox twice adds its value twice.
- `loadRecipes(true)` shows the whole result rather than its first page.
- A click on "load more" still uses the page number it started from.

## Model

| member | source | states |
|---|---|---|
| Seqs.Filter | src/pages/shopping-list/index.jsx:254-255 | `Array.prototype.filter`: never longer than the input; every element kept passes the test and comes from the input, and every element of the input that passes is kept |
| Seqs.FilterSplit | src/pages/shopping-list/index.jsx:254-255 | filtering by a test and by its negation splits the list: each element lands in exactly one part, as often as in the list |
| Seqs.SortBy | src/pages/recipe-search-filter/index.jsx:241-266 | `Array.prototype.sort` with a key comparator returns a permutation of the input |
| Seqs.SortBySpec | src/pages/recipe-search-filter/index.jsx:241-266 | the sorted list is ascending by the key, a permutation of the input, and elements with equal keys keep their relative order, as JavaScript's stable sort guarantees |
| Seqs.SortByConstant | src/pages/store-map-locator/components/StoreListSidebar.jsx:54-55 | a comparator that answers 0 for every pair leaves the list as it was |
| Seqs.GroupBy | src/pages/shopping-list/index.jsx:134-140 | the accumulating loop over the items builds exactly the first-seen grouping of the list |
| Seqs.GroupsOfSpec | src/pages/shopping-list/index.jsx:134-140 | the groups have distinct keys, each holds exactly the items with its key in list order and is not empty, every item's key has a group, and the groups come in the order in which their keys first occur |
| Seqs.GroupsOfSum | src/pages/shopping-list/index.jsx:146 | summing a quantity group by group gives its sum over the whole list |
| JsText.Lower | src/pages/recipe-search-filter/index.jsx:205 | `toLowerCase` keeps the length and lower-cases each character on its own |
| JsText.IncludesAt | src/pages/recipe-search-filter/index.jsx:205 | `includes` holds exactly when the needle occurs at some position of the text |
| JsText.TrimSpec | src/pages/shopping-list/components/AddItemModal.jsx:67-75 | `trim` gives the empty text exactly for text made of white space only; otherwise the result starts and ends with a non-space and occurs inside the input |
| JsText.JoinSplit | src/pages/local-offers-browse/index.jsx:164 | `split` on a one-character separator loses nothing: joining the parts with it gives back the text |
| JsText.ParseIntOfIntText | src/pages/user-registration-onboarding/components/LocationSetupStep.jsx:29-34 | `parseInt` of a whole number's decimal text gives back that number |
| JsText.NumberOfNatText | src/pages/local-offers-browse/index.jsx:164 | `Number` and `parseFloat` of a natural number's decimal text give back that number |
| JsText.ExponentLiteral | src/pages/recipe-search-filter/index.jsx:234-237 | `Number` and `parseFloat` of digits, `e` and digits give the mantissa times that power of ten |
| JsText.ExponentOneOne | src/pages/recipe-search-filter/index.jsx:234-237 | `parseFloat("1e1")` is ten |
| JsText.InfinityLiteral | src/pages/recipe-search-filter/index.jsx:234-237 | `Number` and `parseFloat` read `Infinity` as positive infinity |
| JsText.ParseFloatOfPlusSuffix | src/pages/local-offers-browse/index.jsx:164 | `parseFloat` reads the digits before a trailing `+` where `Number` gives NaN |
| JsText.PlusSuffixIsNaN | src/pages/local-offers-browse/index.jsx:164-171 | `Number` of digits followed by `+` (the `20+` bucket) is NaN |
| FilterState.ValueOr | src/pages/recipe-search-filter/components/AdvancedFilterPanel.jsx:87-89 | a missing or falsy entry reads as the empty list; any other entry is kept, and is truthy |
| FilterState.RemoveAll | src/pages/recipe-search-filter/index.jsx:325 | the result is no longer than the list and holds exactly the entries of the list other than the value; it is the list filtered by `item !== value`, order and repeated entries included |
| FilterState.RemoveAllAbsent | src/pages/recipe-search-filter/index.jsx:325 | removing a value that is not in the list leaves the list as it was |
| FilterState.RemoveAllAppend | src/pages/recipe-search-filter/index.jsx:325 | removal distributes over concatenation, so the kept entries stay in their order |
| FilterState.Without | src/pages/recipe-search-filter/components/AdvancedFilterPanel.jsx:93 | `filter` on an entry succeeds exactly when the entry is a list (a string throws), and the value is then gone from it |
| FilterState.WithoutAbsent | src/components/ui/FilterPanel.jsx:36 | filtering a list that lacks the value gives back the same list |
| FilterState.InRangeBetween | src/pages/recipe-search-filter/index.jsx:224-231 | a range `"a-b"` of digit strings with a non-zero upper bound keeps exactly the values from a to b, both included |
| FilterState.InRangeFrom | src/pages/recipe-search-filter/index.jsx:224-231 | a value without `-` keeps everything from its lower bound up |
| FilterState.InRangeZeroMax | src/pages/recipe-search-filter/index.jsx:226-229 | an upper bound of zero is falsy, so `"a-0"` keeps everything from a up |
| FilterState.InRangeOpenEnded | src/pages/local-offers-browse/index.jsx:164-171 | a value such as `"20+"` or `"120+"` reads its lower bound as NaN and keeps nothing |
| FilterState.ActiveCountZero | src/pages/recipe-search-filter/index.jsx:381-388 | the active-filter count is zero exactly when every entry contributes nothing (empty lists, empty strings) |
| FilterState.ActiveCountAppend | src/pages/recipe-search-filter/index.jsx:381-388 | the count over two runs of keys is the sum of the two counts |
| FilterState.ActiveCountSplit | src/pages/recipe-search-filter/index.jsx:381-388 | over distinct keys, the count is one entry's contribution plus the count over the other keys |
| FilterState.ActiveCountFrame | src/pages/recipe-search-filter/index.jsx:381-388 | entries outside the counted keys do not change the count |
| FilterState.ToggleSection | src/pages/recipe-search-filter/components/AdvancedFilterPanel.jsx:104-109 | the toggled section is negated (a missing flag counts as false), every other section is kept, and no other key appears |
| FilterState.ToggleSectionTwice | src/components/ui/FilterPanel.jsx:47-52 | toggling an existing section twice restores the flags |
| FilterState.PanelChange | src/pages/recipe-search-filter/components/AdvancedFilterPanel.jsx:81-102 | a select overwrites the entry; a ticked box appends to the entry, even a duplicate; an unticked box removes every copy and throws on a string entry; other keys are kept |
| FilterState.EditFilters | src/pages/recipe-search-filter/components/AdvancedFilterPanel.jsx:81-102 | the step-by-step updater on a copy of the filters, used by both panels (FilterPanel.jsx:24-45 is the same code), computes exactly the panel edit, throw included |
| FilterState.PanelCheckDuplicates | src/components/ui/FilterPanel.jsx:33-35 | ticking a value that is already selected adds a second copy |
| FilterState.PanelCheckUncheck | src/components/ui/FilterPanel.jsx:28-37 | ticking and then unticking a value that was not selected restores the filters |
| FilterState.PanelUncheckKeepsKey | src/components/ui/FilterPanel.jsx:36 | unticking a value when the list holds nothing else, however many copies of it, keeps the key, holding an empty list |
| FilterPanels.AdvancedSections | src/pages/recipe-search-filter/components/AdvancedFilterPanel.jsx:17-24 | the advanced panel opens with exactly six sections, of which only "dietary" and "cuisine" are expanded |
| FilterPanels.SharedSections | src/components/ui/FilterPanel.jsx:17-22 | the shared panel opens with exactly four sections, of which only "category" and "price" are expanded |
| FilterPanels.Values | src/components/ui/FilterPanel.jsx:77-82 | the stored values of an option table, one per entry and in order |
| FilterPanels.DefaultPriceValues | src/components/ui/FilterPanel.jsx:77-82 | the default price ranges are "0-5", "5-10", "10-20" and "20+", in that order |
| FilterPanels.OptionsOr | src/components/ui/FilterPanel.jsx:70-90 | a supplied option table replaces the default, even an empty one, since arrays are truthy |
| FilterPanels.AdvancedFilterPanel.constructor | src/pages/recipe-search-filter/components/AdvancedFilterPanel.jsx:16-24 | the local copy starts as the filters passed in, with the initial section flags |
| FilterPanels.AdvancedFilterPanel.LocalFilterChange | src/pages/recipe-search-filter/components/AdvancedFilterPanel.jsx:81-102 | when the panel edit of the old copy succeeds, the local copy becomes its result; `ok` is false exactly when the edit throws, the case in which the application shows its error screen instead; the sections are kept |
| FilterPanels.AdvancedFilterPanel.ToggleSection | src/pages/recipe-search-filter/components/AdvancedFilterPanel.jsx:104-109 | the section flags are toggled as a map edit; the filters are kept |
| FilterPanels.AdvancedFilterPanel.Apply | src/pages/recipe-search-filter/components/AdvancedFilterPanel.jsx:111-114 | the local filters are forwarded unchanged, and closing is requested |
| FilterPanels.AdvancedFilterPanel.Reset | src/pages/recipe-search-filter/components/AdvancedFilterPanel.jsx:116-119 | the local filters become empty, the page is notified, and the sections are kept |
| FilterPanels.FilterPanel.constructor | src/components/ui/FilterPanel.jsx:16-22 | the local copy starts as the filters passed in, with the initial section flags |
| FilterPanels.FilterPanel.FilterChange | src/components/ui/FilterPanel.jsx:24-45 | the same edit as the advanced panel's, on the shared panel's local copy; `ok` is false exactly when the edit throws, the case in which the application shows its error screen instead |
| FilterPanels.FilterPanel.ToggleSection | src/components/ui/FilterPanel.jsx:47-52 | the section flags are toggled; the filters are kept |
| FilterPanels.FilterPanel.Apply | src/components/ui/FilterPanel.jsx:54-61 | the filters are forwarded only when there is an apply callback, and the panel closes only when there is a close callback |
| FilterPanels.FilterPanel.Reset | src/components/ui/FilterPanel.jsx:63-68 | the local filters become empty, and the page is notified only when it listens |
| TextSearch.Suggestions | src/pages/recipe-search-filter/index.jsx:187-189 | at most five suggestions, each one a text containing the query ignoring case, taken in order from the start of the matching texts; fewer than five only when no more match |
| TextSearch.SuggestionsForEmptyQuery | src/pages/recipe-search-filter/index.jsx:187-189 | every text contains the empty query, so it suggests the first five texts |
| RecipeFilterChips.Label | src/pages/recipe-search-filter/components/FilterChips.jsx:51 | a non-empty label from the table for that category and value, or else the value itself |
| RecipeFilterChips.ListChips | src/pages/recipe-search-filter/components/FilterChips.jsx:49-58 | one chip per element of a list entry, in list order |
| RecipeFilterChips.PushListChips | src/pages/recipe-search-filter/components/FilterChips.jsx:50-58 | the inner loop appends exactly the chips of the list to those collected so far |
| RecipeFilterChips.PushEntryChips | src/pages/recipe-search-filter/components/FilterChips.jsx:48-67 | one entry appends a chip per list element, one chip for a non-empty text and none for an empty one, after the chips collected so far |
| RecipeFilterChips.GetFilterChips | src/pages/recipe-search-filter/components/FilterChips.jsx:45-71 | the loop over the entries, in object order, collects exactly the chips of every entry |
| RecipeFilterChips.ChipsMeaning | src/pages/recipe-search-filter/components/FilterChips.jsx:48-67 | every chip names a category of the filters and a value selected under it, with its label and the key "category-value"; a text entry gives its chip only when non-empty |
| RecipeFilterChips.ChipCountIsActiveCount | src/pages/recipe-search-filter/components/FilterChips.jsx:45-71 | the number of chips equals the page's active-filter count for the same filters |
| RecipeFilterChips.Bar | src/pages/recipe-search-filter/components/FilterChips.jsx:73-97 | the bar offers "add filter" exactly when there is no chip, and otherwise shows the chips and their number |
| RecipeFilterChips.BarForFilters | src/pages/recipe-search-filter/components/FilterChips.jsx:73-91 | "add filter" is shown exactly when the active-filter count is zero |
| RecipeSearch.MatchingMembers | src/pages/recipe-search-filter/index.jsx:200-238 | a recipe survives the filter stages exactly when it is in the catalogue and passes the query, dietary, difficulty, cooking-time and price tests |
| RecipeSearch.StagesCompose | src/pages/recipe-search-filter/index.jsx:203-238 | running the five stages one after the other keeps exactly what their conjunction keeps, in catalogue order |
| RecipeSearch.SortRecipesPermutes | src/pages/recipe-search-filter/index.jsx:241-266 | every order is a permutation that keeps recipes with equal keys in their earlier order (a stable sort); relevance and unknown orders keep the list as it is |
| RecipeSearch.SortRecipesSorted | src/pages/recipe-search-filter/index.jsx:241-262 | a known order sorts ascending by its comparator's key |
| RecipeSearch.SortRecipesOrder | src/pages/recipe-search-filter/index.jsx:242-262 | what each order means: price low to high, price high to low, shortest and longest time first, best rating, new recipes first, most reviews first |
| RecipeSearch.SortRecipesMembers | src/pages/recipe-search-filter/index.jsx:241-266 | sorting neither adds nor drops recipes |
| RecipeSearch.Search | src/pages/recipe-search-filter/index.jsx:194-266 | the recipes shown are the catalogue recipes that pass every stage, and nothing else; the search throws exactly when a text dietary entry meets a recipe, or the cooking-time entry is a list (its `split` runs before any recipe is looked at) |
| RecipeSearch.QueryStep | src/pages/recipe-search-filter/index.jsx:203-208 | the query stage keeps the recipes whose title or a dietary tag contains the query, ignoring case; an empty query keeps all |
| RecipeSearch.DietaryStep | src/pages/recipe-search-filter/index.jsx:211-215 | the dietary stage keeps the recipes sharing a wanted tag; it throws exactly when the entry is a non-empty text and some recipe reaches it |
| RecipeSearch.DifficultyStep | src/pages/recipe-search-filter/index.jsx:217-221 | the difficulty stage keeps exact matches of a truthy entry |
| RecipeSearch.TimeStep | src/pages/recipe-search-filter/index.jsx:223-232 | the cooking-time stage keeps the range's recipes; it throws exactly when the entry is a list, which has no split |
| RecipeSearch.PriceStep | src/pages/recipe-search-filter/index.jsx:234-238 | the price stage keeps the recipes costing at most the maximum as `parseFloat` reads it, exponent and `Infinity` included |
| RecipeSearch.PriceExponent | src/pages/recipe-search-filter/index.jsx:234-238 | a maximum typed as `1e1` in the number field keeps the recipes costing at most ten |
| RecipeSearch.PriceInfinityKeepsAll | src/pages/recipe-search-filter/index.jsx:234-238 | a maximum of `Infinity` keeps every recipe |
| RecipeSearch.ApplyRecipeFilters | src/pages/recipe-search-filter/index.jsx:200-266 | the loop of stages and the sort compute exactly the search result |
| RecipeSearch.SearchUnfiltered | src/pages/recipe-search-filter/index.jsx:200-266 | with no query, no filters and the relevance order, the whole catalogue is shown in its order |
| RecipeSearch.SearchIgnoresOtherKeys | src/pages/recipe-search-filter/index.jsx:210-238 | entries other than dietary, difficulty, cookingTime and maxPrice, such as cuisine, do not change the result |
| RecipeSearch.TimeStageBetween | src/pages/recipe-search-filter/index.jsx:224-227 | a range "a-b" with a non-zero maximum keeps exactly the recipes whose time lies between a and b, both included |
| RecipeSearch.TimeStageFrom | src/pages/recipe-search-filter/index.jsx:228-229 | a cooking time without a maximum keeps the recipes from that time up |
| RecipeSearch.SearchOpenEndedTime | src/pages/recipe-search-filter/index.jsx:224-231 | an open-ended time such as "120+" reads its minimum as NaN and shows no recipe |
| RecipeSearch.RecentSearches | src/pages/recipe-search-filter/index.jsx:305-308 | the selected search comes first, without duplicates of it, followed by the earlier searches in order, at most five in all |
| RecipeSearch.RecentSearchesIdempotent | src/pages/recipe-search-filter/index.jsx:300-309 | selecting the same suggestion twice leaves the recent searches as after once |
| RecipeSearch.FiltersWithout | src/pages/recipe-search-filter/index.jsx:321-335 | the value is removed from a list entry, which stays exactly when something else is left in it; a text entry is deleted; every other key is kept |
| RecipeSearch.FiltersWithoutIdempotent | src/pages/recipe-search-filter/index.jsx:321-335 | removing the same chip twice is removing it once |
| RecipeSearch.FavoriteFlipped | src/pages/recipe-search-filter/index.jsx:357-363 | the favourite flag of the recipes with that id is flipped; every other recipe is kept; the length is kept |
| RecipeSearch.FavoriteFlippedTwice | src/pages/recipe-search-filter/index.jsx:357-363 | flipping the same recipe twice restores the list |
| RecipeSearch.RecipeSearchPage.constructor | src/pages/recipe-search-filter/index.jsx:18-37 | the page starts with no recipes on page one, an empty query, no filters, the relevance order and four recent searches |
| RecipeSearch.RecipeSearchPage.LoadRecipes | src/pages/recipe-search-filter/index.jsx:194-278 | a reset shows the whole result and goes back to page one; otherwise the slice of the current page is appended; more is offered while the result is longer than what the page covers; a throwing stage changes no modelled field |
| RecipeSearch.RecipeSearchPage.LoadMore | src/pages/recipe-search-filter/index.jsx:365-368 | the page number moves on, while the appended slice is still the one of the old page number |
| RecipeSearch.RecipeSearchPage.SuggestionSelect | src/pages/recipe-search-filter/index.jsx:300-309 | the suggestion becomes the query and heads the recent searches |
| RecipeSearch.RecipeSearchPage.FilterChange | src/pages/recipe-search-filter/index.jsx:316-319 | the panel's filters replace the active ones; nothing else changes |
| RecipeSearch.RecipeSearchPage.RemoveFilter | src/pages/recipe-search-filter/index.jsx:321-335 | the active filters lose the chip's value |
| RecipeSearch.RecipeSearchPage.ClearAllFilters | src/pages/recipe-search-filter/index.jsx:337-340 | the active filters become empty |
| RecipeSearch.RecipeSearchPage.ToggleFavorite | src/pages/recipe-search-filter/index.jsx:357-363 | the shown recipes get the flipped favourite flag |
| LocalOffers.CategoryName | src/pages/local-offers-browse/index.jsx:153-158 | exactly the four ids produce, meat, dairy and pantry have an offer category |
| LocalOffers.FilteredOffers | src/pages/local-offers-browse/index.jsx:139-180 | the offers shown are exactly the offers passing the query, category, price-range and distance stages; the result throws exactly when the price range is a list |
| LocalOffers.StagesCompose | src/pages/local-offers-browse/index.jsx:140-177 | running the four stages one after the other keeps exactly what their conjunction keeps, in order |
| LocalOffers.QueryStep | src/pages/local-offers-browse/index.jsx:143-149 | the query stage keeps the offers whose product, category or store name contains the query, ignoring case |
| LocalOffers.CategoryStep | src/pages/local-offers-browse/index.jsx:152-160 | the category stage keeps the offers of the mapped category of a truthy active chip |
| LocalOffers.PriceRangeStep | src/pages/local-offers-browse/index.jsx:163-172 | the price-range stage keeps the offers whose discounted price lies in the range, and throws on a list |
| LocalOffers.DistanceStep | src/pages/local-offers-browse/index.jsx:174-177 | the distance stage keeps the offers at most the parsed distance away |
| LocalOffers.ApplyFilters | src/pages/local-offers-browse/index.jsx:139-180 | the staged narrowing computes exactly the filtered offers |
| LocalOffers.UnmappedCategoryShowsNothing | src/pages/local-offers-browse/index.jsx:152-160 | a chip without a category mapping, such as frozen or beverages, shows no offer |
| LocalOffers.UnfilteredShowsAll | src/pages/local-offers-browse/index.jsx:139-180 | with no query, no category and no filters every offer is shown, in order |
| LocalOffers.BoundedRange | src/pages/local-offers-browse/index.jsx:164-167 | a range of two decimal literals with a non-zero upper bound keeps exactly the prices between them, both included |
| LocalOffers.RangeZeroToFive | src/pages/local-offers-browse/index.jsx:164-167 | "0-5" keeps exactly the prices from 0 to 5 |
| LocalOffers.RangeFiveToTen | src/pages/local-offers-browse/index.jsx:164-167 | "5-10" keeps exactly the prices from 5 to 10 |
| LocalOffers.RangeTenToTwenty | src/pages/local-offers-browse/index.jsx:164-167 | "10-20" keeps exactly the prices from 10 to 20 |
| LocalOffers.RangeTwentyPlus | src/pages/local-offers-browse/index.jsx:164-171 | "20+" has no "-", reads its minimum as NaN and keeps no offer |
| LocalOffers.DefaultPriceRanges | src/components/ui/FilterPanel.jsx:77-82 | of the shared panel's four default price ranges, the three bounded ones keep their closed interval and "20+" keeps nothing |
| LocalOffers.ToStoreGroups | src/pages/local-offers-browse/index.jsx:186-194 | one store entry per group, in order, named after the store and placed at the distance of its first offer |
| LocalOffers.GroupOffersByStore | src/pages/local-offers-browse/index.jsx:183-200 | the grouping reduce and the sort of the groups compute exactly the store view |
| LocalOffers.StoreIds | src/pages/local-offers-browse/index.jsx:188 | the store ids of the groups, in order |
| LocalOffers.StoreGroupsOrder | src/pages/local-offers-browse/index.jsx:199 | the groups are sorted by distance, and no store appears twice |
| LocalOffers.StoreGroupsContents | src/pages/local-offers-browse/index.jsx:184-197 | every group is non-empty and holds exactly the shown offers of its store, in order; it takes its name and distance from its first offer |
| LocalOffers.StoreGroupsCover | src/pages/local-offers-browse/index.jsx:184-197 | every shown offer's store has a group |
| LocalOffers.OfferInItsStoreGroup | src/pages/local-offers-browse/index.jsx:184-197 | a shown offer lies in a group exactly when the group is its store's |
| LocalOffers.GetResultCounts | src/pages/local-offers-browse/index.jsx:203-217 | one count per chip category, each the number of offers of that category over all offers |
| LocalOffers.CountIsShownOffers | src/pages/local-offers-browse/index.jsx:203-217 | a chip's count is the number of offers clicking it would show without query and filters; unmapped chips count zero |
| LocalOffers.ChipClick | src/pages/local-offers-browse/components/FilterChips.jsx:5-7 | clicking the active chip clears the category; any other chip becomes active |
| LocalOffers.ChipClickTwice | src/pages/local-offers-browse/components/FilterChips.jsx:5-7 | two clicks on an inactive chip leave no category active; two on the active chip leave it active |
| LocalOffers.ChipCount | src/pages/local-offers-browse/components/FilterChips.jsx:14 | a chip without a count shows zero, otherwise its count |
| LocalOffers.FlipFavorite | src/pages/local-offers-browse/index.jsx:245-251 | the favourite flag of the offers with that id is flipped; every other offer is kept |
| LocalOffers.FlipFavoriteTwice | src/pages/local-offers-browse/index.jsx:245-251 | flipping twice restores the offers |
| LocalOffers.SetAlert | src/pages/local-offers-browse/index.jsx:259-266 | the offers with that id get an alert; every other offer is kept |
| LocalOffers.SetAlertIdempotent | src/pages/local-offers-browse/index.jsx:259-266 | creating the same alert twice is creating it once |
| LocalOffers.ActiveFilterCount | src/pages/local-offers-browse/index.jsx:277-285 | the count covers the category and dietary selections, and is zero exactly when no chip, price range, distance, category or dietary selection is active |
| LocalOffers.LocalOffersPage.constructor | src/pages/local-offers-browse/index.jsx:15-22 | the page starts with all mock offers shown, an empty query, no category and no filters |
| LocalOffers.LocalOffersPage.Refilter | src/pages/local-offers-browse/index.jsx:228-230 | when no stage throws, the shown offers become the filtered offers; `ok` is false exactly when a stage throws, the case in which the application shows its error screen instead |
| LocalOffers.LocalOffersPage.ClickChip | src/pages/local-offers-browse/components/FilterChips.jsx:5-7 | the active category becomes the chip click's result |
| LocalOffers.LocalOffersPage.ToggleFavorite | src/pages/local-offers-browse/index.jsx:245-251 | the offers get the flipped favourite flag |
| LocalOffers.LocalOffersPage.CreatePriceAlert | src/pages/local-offers-browse/index.jsx:259-266 | the offers get the alert |
| LocalOffers.LocalOffersPage.FilterApply | src/pages/local-offers-browse/index.jsx:268-270 | the panel's filters replace the page's |
| LocalOffers.LocalOffersPage.FilterReset | src/pages/local-offers-browse/index.jsx:272-275 | filters and category are cleared, so the active-filter count drops to zero |
| StoreMap.FilteredStores | src/pages/store-map-locator/index.jsx:306-318 | the stores kept are exactly those of the list passing the chain and radius tests |
| StoreMap.PageStagesCompose | src/pages/store-map-locator/index.jsx:306-318 | the chain stage followed by the radius stage keeps exactly what both tests keep, in order |
| StoreMap.ChainStep | src/pages/store-map-locator/index.jsx:309-311 | a non-empty chain selection keeps the stores of the selected chains |
| StoreMap.RadiusStep | src/pages/store-map-locator/index.jsx:313-315 | a truthy radius keeps the stores at most that far away |
| StoreMap.GetFilteredStores | src/pages/store-map-locator/index.jsx:306-318 | the two stages compute exactly the filtered stores |
| StoreMap.NoFiltersKeepsAll | src/pages/store-map-locator/index.jsx:306-318 | with no filters every store is kept, in order |
| StoreMap.EmptyRadiusIsNoRadius | src/pages/store-map-locator/components/MapFilterChips.jsx:19 | the "Alle" radius, the empty value, filters exactly as having no radius |
| StoreMap.PageFilterCount | src/pages/store-map-locator/index.jsx:321-326 | the page's count is zero exactly when no entry holds a selected value |
| StoreMap.ToggleIn | src/pages/store-map-locator/components/MapFilterChips.jsx:29-49 | a toggle writes the list without the value when it is selected and the list with the value appended when it is not; other keys are kept; a text entry that contains the value throws |
| StoreMap.ToggleInTwice | src/pages/store-map-locator/components/MapFilterChips.jsx:29-36 | toggling a value that is not selected twice restores the list |
| StoreMap.ToggleInShaped | src/pages/store-map-locator/components/MapFilterChips.jsx:29-49 | the chain and category toggles keep the chips' shapes: lists under chains and categories |
| StoreMap.RadiusChange | src/pages/store-map-locator/components/MapFilterChips.jsx:38-40 | only the radius changes, to the chosen value |
| StoreMap.ChipsFilterCount | src/pages/store-map-locator/components/MapFilterChips.jsx:55-61 | the chips' count is zero exactly when there is no chain, no truthy radius and no category |
| StoreMap.RadiusChoiceCount | src/pages/store-map-locator/components/MapFilterChips.jsx:14-20 | choosing "Alle" adds nothing to the count; any other radius choice adds one |
| StoreMap.ChipKeysExhausted | src/pages/store-map-locator/index.jsx:321-326 | on chip-shaped filters, keys other than chains, radius and categories contribute nothing to the page's count |
| StoreMap.PageCountIsChipsCount | src/pages/store-map-locator/index.jsx:321-326 | on the filters the chips produce, the page's count and the chips' count agree |
| StoreMap.CountOverChipKeys | src/pages/store-map-locator/index.jsx:321-326 | over filters keyed only by chains, radius and categories, the page's count in any key order is the sum of the three entries' contributions |
| StoreMap.PinStores | src/pages/store-map-locator/components/MapContainer.jsx:69-77 | the map pins exactly the stores passing its own test, in which chains, when selected, decide alone |
| StoreMap.PinsOfFilteredStores | src/pages/store-map-locator/components/MapContainer.jsx:69-77 | re-filtering the page's filtered stores with the same filters changes nothing |
| StoreMap.PinsIgnoreRadiusWithChains | src/pages/store-map-locator/components/MapContainer.jsx:70-75 | with chains selected, the map ignores the radius |
| StoreMap.StoreColor | src/pages/store-map-locator/components/MapContainer.jsx:63-67 | green above twenty offers, amber above ten up to twenty, grey otherwise |
| StoreMap.Badge | src/pages/store-map-locator/components/MapContainer.jsx:135-137 | no badge without offers, "99+" above 99, otherwise the count in decimal |
| StoreMap.PinLeft | src/pages/store-map-locator/components/MapContainer.jsx:120 | a pin's left position is one of the three columns 30, 55 and 80 per cent |
| StoreMap.PinTop | src/pages/store-map-locator/components/MapContainer.jsx:121 | a pin's top position is 20 per cent plus a multiple of 20 |
| StoreMap.PinPositionsDistinct | src/pages/store-map-locator/components/MapContainer.jsx:115-121 | different stores get different pin positions |
| StoreMap.SidebarStores | src/pages/store-map-locator/components/StoreListSidebar.jsx:60-83 | the sidebar keeps exactly the stores passing its search, chain and radius tests |
| StoreMap.SidebarOfFilteredStores | src/pages/store-map-locator/components/StoreListSidebar.jsx:60-83 | with an empty search, the sidebar shows every store of the page's filtered list |
| StoreMap.SortStoresSpec | src/pages/store-map-locator/components/StoreListSidebar.jsx:45-58 | every order is a permutation keeping ties in order; distance sorts ascending, offers descending; an unknown order changes nothing |
| StoreMap.StoreListSidebar.constructor | src/pages/store-map-locator/components/StoreListSidebar.jsx:15-16 | the sidebar starts with an empty search and the distance order |
| StoreMap.StoreListSidebar.Search | src/pages/store-map-locator/components/StoreListSidebar.jsx:18-20 | the search text is replaced |
| StoreMap.StoreListSidebar.SetSort | src/pages/store-map-locator/components/StoreListSidebar.jsx:16 | the sort order is replaced |
| StoreMap.StoreListSidebar.Shown | src/pages/store-map-locator/components/StoreListSidebar.jsx:85-96 | nothing when hidden; otherwise the filtered stores, sorted, and their number |
| StoreMap.StoreMapPage.constructor | src/pages/store-map-locator/index.jsx:15-21 | the page starts with no filters, no selection and closed panels, and with the sidebar shown on wide windows |
| StoreMap.StoreMapPage.FilterChange | src/pages/store-map-locator/index.jsx:294-296 | the filter object is replaced; nothing else changes |
| StoreMap.StoreMapPage.ToggleChip | src/pages/store-map-locator/components/MapFilterChips.jsx:29-49 | the filters become the toggle's result; a throwing toggle changes nothing |
| StoreMap.StoreMapPage.ClearAllFilters | src/pages/store-map-locator/components/MapFilterChips.jsx:51-53 | the filters become empty |
| StoreMap.StoreMapPage.StoreSelect | src/pages/store-map-locator/index.jsx:244-247 | the store is selected and the bottom sheet opens |
| StoreMap.StoreMapPage.GetDirections | src/pages/store-map-locator/index.jsx:267-271 | the route holds exactly this store, and the route panel opens with the route |
| StoreMap.StoreMapPage.ToggleSidebar | src/pages/store-map-locator/index.jsx:302-304 | the sidebar flag is negated; nothing else changes |
| RoutePanel.FormatDuration | src/pages/store-map-locator/components/RoutePanel.jsx:29-36 | below an hour, the minutes followed by " Min"; from an hour on, the hours, "h ", the remaining minutes and "m" |
| RoutePanel.ShortDurationInjective | src/pages/store-map-locator/components/RoutePanel.jsx:30-32 | different durations below an hour read differently |
| RoutePanel.LongDurationInjective | src/pages/store-map-locator/components/RoutePanel.jsx:33-35 | different hour and minute pairs read differently |
| RoutePanel.FormatDurationInjective | src/pages/store-map-locator/components/RoutePanel.jsx:29-36 | the text of a duration determines the duration |
| RoutePanel.StartNavigation | src/pages/store-map-locator/components/RoutePanel.jsx:17-21 | the route is handed on exactly when there is a callback and a route |
| RoutePanel.OptimizeRoute | src/pages/store-map-locator/components/RoutePanel.jsx:23-27 | the selected stores and the current route type are handed on exactly when there is a callback |
| RoutePanel.RouteChoice.constructor | src/pages/store-map-locator/components/RoutePanel.jsx:13 | the panel starts on the fastest route |
| RoutePanel.RouteChoice.Choose | src/pages/store-map-locator/components/RoutePanel.jsx:75-78 | a click on an option button makes that option's value the route type, which stays one of the three options |
| RoutePanel.RouteChoice.Optimize | src/pages/store-map-locator/components/RoutePanel.jsx:23-27 | optimising from the panel's state hands on its current route type, always one of the three options |
| RoutePanel.RouteChoice.Shown | src/pages/store-map-locator/components/RoutePanel.jsx:15-88 | a hidden panel renders nothing; a shown one renders one button per route option, exactly the current route type highlighted |
| ShoppingList.TotalSavings | src/pages/shopping-list/index.jsx:113-115 | the savings are the sum over the items of what each line saves (original price times quantity less price times quantity) |
| ShoppingList.CountText | src/pages/shopping-list/index.jsx:144 | the subtitle starts with the decimal item count |
| ShoppingList.ToSections | src/pages/shopping-list/index.jsx:142-147 | one section per group, in group order, titled from its key, holding the group's items, their count and the sum of their line costs |
| ShoppingList.Titles | src/pages/shopping-list/index.jsx:143 | the section titles, one per section, in order |
| ShoppingList.SectionsTotalIsGroupsSum | src/pages/shopping-list/index.jsx:146 | the section totals add up to the sum of the line costs over all groups |
| ShoppingList.GroupItemsByStore | src/pages/shopping-list/index.jsx:133-148 | the grouping pass computes the store view |
| ShoppingList.StoreSectionsPartition | src/pages/shopping-list/index.jsx:133-148 | the store view has distinct titles, each section holds exactly its store's items in list order and is not empty, and every item's store has a section |
| ShoppingList.StoreSectionsOrder | src/pages/shopping-list/index.jsx:134-142 | the store sections appear in the order in which their stores first occur in the list |
| ShoppingList.StoreSectionsTotals | src/pages/shopping-list/index.jsx:144-146 | each section's subtitle counts its items and its total is their cost; the section totals add up to the list's total cost |
| ShoppingList.CategoryTitle | src/pages/shopping-list/index.jsx:151-157 | any key outside the four named categories is titled `Sonstiges` |
| ShoppingList.GroupItemsByCategory | src/pages/shopping-list/index.jsx:150-174 | the grouping pass computes the category view |
| ShoppingList.CategorySectionsPartition | src/pages/shopping-list/index.jsx:159-173 | one section per distinct category key (a missing category counting as `sonstiges`), titled by the name table, holding exactly that key's items; every item's key has a section; the totals add up to the total cost |
| ShoppingList.UnnamedCategoriesStaySeparate | src/pages/shopping-list/index.jsx:168-169 | two unnamed categories give two different sections, both titled `Sonstiges` |
| ShoppingList.ToggleComplete | src/pages/shopping-list/index.jsx:176-184 | the items with that id flip their checked state; all other items are kept |
| ShoppingList.ToggleCompleteTwice | src/pages/shopping-list/index.jsx:176-184 | toggling the same id twice restores the list |
| ShoppingList.SetQuantity | src/pages/shopping-list/index.jsx:186-194 | the items with that id take the new quantity and keep every other field; all other items are kept |
| ShoppingList.RemoveItem | src/pages/shopping-list/index.jsx:196-198 | no item with that id remains; every other item stays |
| ShoppingList.ClearCompleted | src/pages/shopping-list/index.jsx:207-209 | exactly the unchecked items remain |
| ShoppingList.BulkCheck | src/pages/shopping-list/index.jsx:200-205 | a fully checked list becomes fully unchecked, any other list becomes fully checked, and no other field changes |
| ShoppingList.BulkCheckTwice | src/pages/shopping-list/index.jsx:200-205 | pressing the bulk button twice on a list that is not fully checked leaves every item unchecked |
| ShoppingList.ActiveCompletedPartition | src/pages/shopping-list/index.jsx:254-255 | the active and completed lists together hold each item exactly as often as the list does, and clearing completed items leaves the active list |
| ShoppingList.AddItemTotals | src/pages/shopping-list/index.jsx:238-240 | appending an item adds its line cost to the total cost and its line saving to the total savings |
| ShoppingList.ShoppingListPage.constructor | src/pages/shopping-list/index.jsx:15-18 | after mounting, the list holds the sample items and the view is by store |
| ShoppingList.ShoppingListPage.Grouped | src/pages/shopping-list/index.jsx:129-131 | the store view when the view mode is `store`, the category view otherwise |
| ShoppingList.ShoppingListPage.ToggleCompleteItem | src/pages/shopping-list/index.jsx:176-184 | the list becomes its toggled form; the view mode is kept |
| ShoppingList.ShoppingListPage.QuantityChange | src/pages/shopping-list/index.jsx:186-194 | the list takes the new quantity; the view mode is kept |
| ShoppingList.ShoppingListPage.Remove | src/pages/shopping-list/index.jsx:196-198 | the item is removed; the view mode is kept |
| ShoppingList.ShoppingListPage.CheckAll | src/pages/shopping-list/index.jsx:200-205 | the list is bulk-checked; the view mode is kept |
| ShoppingList.ShoppingListPage.ClearDone | src/pages/shopping-list/index.jsx:207-209 | the checked items are removed; the view mode is kept |
| ShoppingList.ShoppingListPage.AddItem | src/pages/shopping-list/index.jsx:238-240 | the new item is appended at the end |
| ShoppingList.Amounts | src/pages/shopping-list/components/ShoppingListItem.jsx:28-30 | the saving is the original amount less the price amount, and for a quantity of at least one it is positive exactly when the original unit price exceeds the unit price |
| ShoppingList.ItemRow.constructor | src/pages/shopping-list/components/ShoppingListItem.jsx:11 | the row starts from the item's quantity |
| ShoppingList.ItemRow.QuantityChange | src/pages/shopping-list/components/ShoppingListItem.jsx:14-18 | a quantity below one is ignored and nothing is reported; otherwise the row takes it and reports it once with the item's id |
| ShoppingList.ItemRow.Decrement | src/pages/shopping-list/components/ShoppingListItem.jsx:102-108 | at one or less nothing happens; above one the quantity drops by one and is reported; a quantity of at least one stays at least one |
| ShoppingList.ItemRow.Increment | src/pages/shopping-list/components/ShoppingListItem.jsx:112-117 | the quantity grows by one and is reported |
| ShoppingList.ItemSuggestions | src/pages/shopping-list/components/AddItemModal.jsx:45-57 | nothing for fewer than two characters; otherwise the first five names, in order, that contain the typed text ignoring case, and all of them when fewer than five do |
| ShoppingList.QuantityInput | src/pages/shopping-list/components/AddItemModal.jsx:158 | a parsed non-zero whole number is taken as it is; a failed parse or zero gives one |
| ShoppingList.QuantityInputOfNumber | src/pages/shopping-list/components/AddItemModal.jsx:158 | typing the decimal form of a positive number stores that number |
| ShoppingList.NewItem | src/pages/shopping-list/components/AddItemModal.jsx:69-81 | the item has the time as id, trimmed name and note, the chosen quantity and unit, `sonstiges` when no category is chosen, no price, no offer, unchecked, in the manual store; it adds nothing to the totals |
| ShoppingList.AddItemForm.constructor | src/pages/shopping-list/components/AddItemModal.jsx:8-13 | every field starts cleared: empty name, quantity one, unit `Stück`, no category, no note, no suggestions |
| ShoppingList.AddItemForm.ItemNameChange | src/pages/shopping-list/components/AddItemModal.jsx:45-57 | the name is what was typed and the suggestions are those for it |
| ShoppingList.AddItemForm.SuggestionClick | src/pages/shopping-list/components/AddItemModal.jsx:59-62 | the name becomes the suggestion and the suggestions close |
| ShoppingList.AddItemForm.QuantityTyped | src/pages/shopping-list/components/AddItemModal.jsx:158 | the quantity becomes the field's reading of the text |
| ShoppingList.AddItemForm.Clear | src/pages/shopping-list/components/AddItemModal.jsx:85-91 | every field is back at its starting value |
| ShoppingList.AddItemForm.Submit | src/pages/shopping-list/components/AddItemModal.jsx:64-94 | a blank name adds nothing, keeps the form open and changes nothing; otherwise the built item is handed over, the form is cleared and closes |
| ShoppingList.BlankNameAddsNothing | src/pages/shopping-list/components/AddItemModal.jsx:67 | a name made only of white space trims to nothing, so it is refused |
| Onboarding.FieldKeyInjective | src/pages/user-registration-onboarding/components/AccountSetupStep.jsx:19-23 | distinct text fields have distinct property names, so writing one field never touches another |
| Onboarding.SetText | src/pages/user-registration-onboarding/components/AccountSetupStep.jsx:19-23 | the named field takes the value; every other text field and every non-text field is kept |
| Onboarding.ClearError | src/pages/user-registration-onboarding/components/AccountSetupStep.jsx:25-31 | the same fields keep a message entry, the typed field's message becomes empty and every other message is kept |
| Onboarding.ClearErrorKeepsNoMessage | src/pages/user-registration-onboarding/components/LocationSetupStep.jsx:21-26 | typing never brings a message back: without messages the map is left as it is |
| Onboarding.NextPreviousInverse | src/pages/user-registration-onboarding/index.jsx:35-45 | away from the ends, going on and then back (or back and then on) returns to the same step |
| Onboarding.WalkInRange | src/pages/user-registration-onboarding/index.jsx:35-45 | from any of the four steps, any sequence of next and previous presses stays among the four steps |
| Onboarding.ForwardFromStart | src/pages/user-registration-onboarding/index.jsx:35-39 | n presses of next from the first step reach step n + 1, and stop at the last step |
| Onboarding.ForwardsFrom | src/pages/user-registration-onboarding/index.jsx:35-39 | n presses of next from a step move n steps on, capped at the last step |
| Onboarding.Shown | src/pages/user-registration-onboarding/index.jsx:69-118 | the welcome animation exactly when the wizard is complete; otherwise the current step's component, and nothing exactly when the step is not one of the four |
| Onboarding.CanProceedShape | src/pages/user-registration-onboarding/index.jsx:121-128 | the first step's gate holds exactly when the five account fields are filled in and the passwords agree; the second's exactly when the postal code has five characters |
| Onboarding.InitialGates | src/pages/user-registration-onboarding/index.jsx:12-31 | the start data fails the gates of the first two steps and passes those of the last two |
| Onboarding.OnboardingWizard.constructor | src/pages/user-registration-onboarding/index.jsx:10-31 | the wizard starts on the first step, without the welcome animation, with the start data |
| Onboarding.OnboardingWizard.Next | src/pages/user-registration-onboarding/index.jsx:35-39 | the step moves one on unless it is the last, and stays among the four steps |
| Onboarding.OnboardingWizard.Previous | src/pages/user-registration-onboarding/index.jsx:41-45 | the step moves one back unless it is the first, and stays among the four steps |
| Onboarding.OnboardingWizard.Complete | src/pages/user-registration-onboarding/index.jsx:52-54 | the welcome animation is switched on |
| Onboarding.OnboardingWizard.SetFormData | src/pages/user-registration-onboarding/index.jsx:12 | the shared form data becomes what a step hands over |
| OnboardingContainer.Progress | src/components/ui/OnboardingContainer.jsx:38 | the bar's percentage is the step's share of the steps: between 0 and 100 for a step in range, 100 on the last step |
| OnboardingContainer.ProgressIncreases | src/components/ui/OnboardingContainer.jsx:38 | a later step fills strictly more of the bar |
| OnboardingContainer.Primary | src/components/ui/OnboardingContainer.jsx:125-136 | the button is disabled exactly when the step may not proceed; enabled, it finishes on the last step and moves on on every other |
| OnboardingContainer.SkipOrFinish | src/components/ui/OnboardingContainer.jsx:56-65 | the skip button never appears together with the finish action; on an enabled step skip shows exactly when the primary button moves on |
| OnboardingContainer.PreviousDisabled | src/components/ui/OnboardingContainer.jsx:39 | the back button is disabled exactly on the first step |
| OnboardingContainer.PreviousDisabledWhereStuck | src/components/ui/OnboardingContainer.jsx:100-106 | on a step of the wizard, the back button is disabled exactly where going back would not move; elsewhere it goes one step back |
| OnboardingContainer.Indicators | src/components/ui/OnboardingContainer.jsx:114-122 | one indicator per step, the i-th filled exactly when i + 1 is at most the current step |
| OnboardingContainer.Filled | src/components/ui/OnboardingContainer.jsx:114-122 | no more indicators are filled than there are |
| OnboardingContainer.FilledIndicators | src/components/ui/OnboardingContainer.jsx:114-122 | exactly as many indicators are filled as the number of the current step |
| OnboardingContainer.AllFilled | src/components/ui/OnboardingContainer.jsx:114-122 | on the last step every indicator is filled |
| AccountSetup.EmailOfParts | src/pages/user-registration-onboarding/components/AccountSetupStep.jsx:10-13 | any three non-empty parts without white space or `@` joined as local@domain.top form a valid address |
| AccountSetup.EmailHasOneAt | src/pages/user-registration-onboarding/components/AccountSetupStep.jsx:10-13 | a valid address has no white space and exactly one `@`, neither first nor last |
| AccountSetup.EmailWithoutDot | src/pages/user-registration-onboarding/components/AccountSetupStep.jsx:10-13 | an address without a dot after the `@` is rejected |
| AccountSetup.Message | src/pages/user-registration-onboarding/components/AccountSetupStep.jsx:37-61 | every empty account field gets a message; the postal code never gets one here |
| AccountSetup.FieldOfKey | src/pages/user-registration-onboarding/components/AccountSetupStep.jsx:37-61 | each of the five message keys names the account field with that property name |
| AccountSetup.AccountErrors | src/pages/user-registration-onboarding/components/AccountSetupStep.jsx:34-63 | the error object has an entry exactly for the account fields that have a message, holding that message, and no other key |
| AccountSetup.AccountErrorsEmpty | src/pages/user-registration-onboarding/components/AccountSetupStep.jsx:34-67 | there is no message exactly when both names are filled in, the address is valid, the password has at least eight characters and both passwords agree |
| AccountSetup.AccountCheckImpliesGate | src/pages/user-registration-onboarding/index.jsx:123-126 | whatever the step's own check accepts, the wizard's first gate accepts too |
| AccountSetup.GateIgnoresFormat | src/pages/user-registration-onboarding/index.jsx:123-126 | the wizard's gate accepts data (a malformed address, a one-letter password) that the step rejects |
| AccountSetup.AccountSetupStep.constructor | src/pages/user-registration-onboarding/components/AccountSetupStep.jsx:7 | the step starts without messages |
| AccountSetup.AccountSetupStep.InputChange | src/pages/user-registration-onboarding/components/AccountSetupStep.jsx:19-32 | the field takes the value in the handed-over data and its message is cleared |
| AccountSetup.AccountSetupStep.Continue | src/pages/user-registration-onboarding/components/AccountSetupStep.jsx:34-68 | the messages shown are the error object, and the wizard moves on exactly when it is empty |
| AccountSetup.SameErrors | src/pages/user-registration-onboarding/components/AccountSetupStep.jsx:34-63 | a map with exactly the account fields' messages is the error object |
| AccountSetup.AllMessages | src/pages/user-registration-onboarding/components/AccountSetupStep.jsx:34-63 | adding each field's message in the order the handler checks them builds exactly the error object |
| LocationSetup.LocationErrors | src/pages/user-registration-onboarding/components/LocationSetupStep.jsx:36-45 | "required" for an empty code, "invalid" for a code that is not five digits, and no message exactly when the code is five digits |
| LocationSetup.LocationCheckImpliesGate | src/pages/user-registration-onboarding/index.jsx:127-128 | whatever the step's own check accepts, the wizard's second gate accepts too |
| LocationSetup.GateIgnoresDigits | src/pages/user-registration-onboarding/index.jsx:127-128 | the wizard's gate accepts five letters, which the step rejects as invalid |
| LocationSetup.RadiusChange | src/pages/user-registration-onboarding/components/LocationSetupStep.jsx:29-34 | the radius becomes the parsed value; nothing else changes |
| LocationSetup.CurrentRadius | src/pages/user-registration-onboarding/components/LocationSetupStep.jsx:65 | the radius shown is never zero: the stored radius when it is a non-zero number, five otherwise |
| LocationSetup.RadiusRoundTrip | src/pages/user-registration-onboarding/components/LocationSetupStep.jsx:113 | moving the slider to a non-zero whole number shows exactly that radius |
| LocationSetup.RadiusOptionsShown | src/pages/user-registration-onboarding/components/LocationSetupStep.jsx:58-63 | picking any of the four radius options shows exactly that radius |
| LocationSetup.LocationSetupStep.constructor | src/pages/user-registration-onboarding/components/LocationSetupStep.jsx:7-8 | the step starts without messages and not checking |
| LocationSetup.LocationSetupStep.InputChange | src/pages/user-registration-onboarding/components/LocationSetupStep.jsx:15-27 | the field takes the value in the handed-over data and its message is cleared |
| LocationSetup.LocationSetupStep.Continue | src/pages/user-registration-onboarding/components/LocationSetupStep.jsx:36-49 | the messages shown are the error object, and the check starts exactly when the code is five digits |
| LocationSetup.LocationSetupStep.CheckDone | src/pages/user-registration-onboarding/components/LocationSetupStep.jsx:51-54 | when the check ends the flag drops and the wizard moves on |
| DietaryPreferences.DietaryChange | src/pages/user-registration-onboarding/components/DietaryPreferencesStep.jsx:47-52 | the diet becomes the chosen one; nothing else changes |
| DietaryPreferences.AllergenChange | src/pages/user-registration-onboarding/components/DietaryPreferencesStep.jsx:54-69 | checking appends the allergen; unchecking removes every copy of it and keeps every other allergen; nothing but the allergens changes |
| DietaryPreferences.CheckThenUncheck | src/pages/user-registration-onboarding/components/DietaryPreferencesStep.jsx:54-69 | checking and then unchecking leaves the list as unchecking alone would |
| DietaryPreferences.CheckCountsCopies | src/pages/user-registration-onboarding/components/DietaryPreferencesStep.jsx:57-61 | each check adds one more copy of the allergen |
| DietaryPreferences.UncheckedNotSelected | src/pages/user-registration-onboarding/components/DietaryPreferencesStep.jsx:158-159 | after unchecking, the allergen's box is not checked |
| DietaryPreferences.SelectedDietary | src/pages/user-registration-onboarding/components/DietaryPreferencesStep.jsx:71 | the diet shown as selected is the stored one when it is set, `omnivore` otherwise, and never empty |
| DietaryPreferences.AllergenNoun | src/pages/user-registration-onboarding/components/DietaryPreferencesStep.jsx:173 | the plural noun exactly for more than one allergen |
| DietaryPreferences.AllergenWarning | src/pages/user-registration-onboarding/components/DietaryPreferencesStep.jsx:166-178 | the warning shows exactly when some allergen is selected |
| DietaryPreferences.DietChosenPassesGate | src/pages/user-registration-onboarding/index.jsx:129-130 | choosing any offered diet passes the wizard's third gate |
| BudgetSetup.BudgetChange | src/pages/user-registration-onboarding/components/BudgetSetupStep.jsx:10-15 | the budget becomes the parsed value; nothing else changes |
| BudgetSetup.HouseholdSizeChange | src/pages/user-registration-onboarding/components/BudgetSetupStep.jsx:17-22 | the household size becomes the chosen one; nothing else changes |
| BudgetSetup.CurrentBudget | src/pages/user-registration-onboarding/components/BudgetSetupStep.jsx:38 | the budget shown is never zero: the stored budget when it is a non-zero number, 75 otherwise |
| BudgetSetup.CurrentHouseholdSize | src/pages/user-registration-onboarding/components/BudgetSetupStep.jsx:39 | the household size shown is never zero: the stored size when non-zero, 2 otherwise |
| BudgetSetup.BudgetRoundTrip | src/pages/user-registration-onboarding/components/BudgetSetupStep.jsx:121 | moving the slider to a non-zero whole number shows exactly that budget |
| BudgetSetup.FirstContaining | src/pages/user-registration-onboarding/components/BudgetSetupStep.jsx:56 | the position `find` stops at: the first range holding the budget, no earlier range holding it |
| BudgetSetup.CurrentBudgetRange | src/pages/user-registration-onboarding/components/BudgetSetupStep.jsx:41-57 | one of the four ranges; a range holding the budget when it is between 25 and 200, the second range otherwise |
| BudgetSetup.BoundariesGoLow | src/pages/user-registration-onboarding/components/BudgetSetupStep.jsx:41-57 | a budget on a shared boundary (50, 100, 150) belongs to the lower range |
| BudgetSetup.RangeByInterval | src/pages/user-registration-onboarding/components/BudgetSetupStep.jsx:41-57 | between 25 and 200 the range is the one whose interior or upper end holds the budget |
| BudgetSetup.RoundBounds | src/pages/user-registration-onboarding/components/BudgetSetupStep.jsx:59 | rounding is never more than half a unit off |
| BudgetSetup.EstimatedSavings | src/pages/user-registration-onboarding/components/BudgetSetupStep.jsx:59 | the weekly saving shown is fifteen per cent of the budget rounded half up, written as whole-number arithmetic |
| BudgetSetup.YearlySavings | src/pages/user-registration-onboarding/components/BudgetSetupStep.jsx:162 | the yearly figure is fifty-two weekly savings |
| BudgetSetup.SavingsNearFifteenPercent | src/pages/user-registration-onboarding/components/BudgetSetupStep.jsx:59 | the weekly saving shown is within half a unit of fifteen per cent of the budget |
| BudgetSetup.PerPerson | src/pages/user-registration-onboarding/components/BudgetSetupStep.jsx:143 | for a positive household the per-person figure is the budget divided by the household size, rounded half up, in whole-number arithmetic |
| BudgetSetup.PerPersonShown | src/pages/user-registration-onboarding/components/BudgetSetupStep.jsx:38-39 | the per-person figure uses the budget and the household size shown, never a zero divisor |
| BudgetSetup.InitialFigures | src/pages/user-registration-onboarding/components/BudgetSetupStep.jsx:143-162 | for the start data the page shows 38 per person, 11 a week, 572 a year and the range `Ausgewogen` |
| BudgetSetup.BudgetSetupStep.constructor | src/pages/user-registration-onboarding/components/BudgetSetupStep.jsx:7-8 | the terms start unaccepted and nothing is being created |
| BudgetSetup.BudgetSetupStep.SetTerms | src/pages/user-registration-onboarding/components/BudgetSetupStep.jsx:184 | the terms flag follows the checkbox |
| BudgetSetup.BudgetSetupStep.Complete | src/pages/user-registration-onboarding/components/BudgetSetupStep.jsx:24-29 | creation starts exactly when the terms are accepted; otherwise nothing changes |
| BudgetSetup.BudgetSetupStep.CreationDone | src/pages/user-registration-onboarding/components/BudgetSetupStep.jsx:32-35 | when creation ends the flag drops and the wizard is told to complete |
| NotificationBanner.Visible | src/pages/dashboard-home/components/NotificationBanner.jsx:24 | every notification shown has an id that was not dismissed and comes from the list; every notification with an id that was not dismissed is shown |
| NotificationBanner.NothingDismissed | src/pages/dashboard-home/components/NotificationBanner.jsx:6 | with nothing dismissed the whole list is shown, in order |
| NotificationBanner.DismissOneMore | src/pages/dashboard-home/components/NotificationBanner.jsx:8-9 | dismissing one more id shows what was shown before, less the notifications with that id, in the same order |
| NotificationBanner.Render | src/pages/dashboard-home/components/NotificationBanner.jsx:24-28 | the banner renders nothing exactly when every notification's id has been dismissed, and otherwise the non-empty visible list |
| NotificationBanner.ToneOf | src/pages/dashboard-home/components/NotificationBanner.jsx:35-39 | `warning`, `success` and `error` each get their own styling, and every other type the info styling |
| NotificationBanner.IconsDistinct | src/pages/dashboard-home/components/NotificationBanner.jsx:44-49 | the four stylings have four different icons |
| NotificationBanner.Banner.constructor | src/pages/dashboard-home/components/NotificationBanner.jsx:6 | the banner starts with no dismissed id |
| NotificationBanner.Banner.Dismiss | src/pages/dashboard-home/components/NotificationBanner.jsx:8-13 | the id joins the dismissed ids, and is passed on to the page exactly when the page listens |
| NotificationBanner.DismissedNotVisible | src/pages/dashboard-home/components/NotificationBanner.jsx:8-24 | after a dismissal no shown notification carries that id |
| SavingsSummary.ProgressPercentage | src/pages/dashboard-home/components/SavingsSummary.jsx:5 | at most 100, not negative for a non-negative amount spent, the spent share of the budget in per cent while within budget, and exactly 100 from the budget on |
| SavingsSummary.RemainingBudget | src/pages/dashboard-home/components/SavingsSummary.jsx:6 | never negative; zero exactly when the amount spent reaches the budget; otherwise spent and remaining add up to the budget |
| SavingsSummary.OverBudgetFull | src/pages/dashboard-home/components/SavingsSummary.jsx:5-7 | over budget, nothing remains and the bar is full |
| SavingsSummary.SpentPlusRemaining | src/pages/dashboard-home/components/SavingsSummary.jsx:5-7 | within budget, spent plus remaining is the budget and the bar shows the spent share |
| SavingsSummary.BarColorOf | src/pages/dashboard-home/components/SavingsSummary.jsx:30-35 | red exactly over budget, amber exactly within budget above eighty per cent, the primary colour exactly within budget at eighty per cent or less |
| SavingsSummary.WarningMeansFourFifths | src/pages/dashboard-home/components/SavingsSummary.jsx:30-35 | an amber bar means more than four fifths of the budget is spent and not more than all of it |
| SavingsSummary.ComparisonIsGood | src/pages/dashboard-home/components/SavingsSummary.jsx:76-82 | the comparison with last week is good news exactly when it is positive |
| SavingsSummary.ComparisonAmount | src/pages/dashboard-home/components/SavingsSummary.jsx:84 | the amount shown is the comparison without its sign |
| MealPlanHero.JsRem | src/pages/dashboard-home/components/MealPlanHero.jsx:19 | the remainder of JavaScript's `%`, taking the dividend's sign |
| MealPlanHero.NextSlide | src/pages/dashboard-home/components/MealPlanHero.jsx:18-20 | from a valid index: the next index, wrapping from the last recipe to the first, always a valid index |
| MealPlanHero.PrevSlide | src/pages/dashboard-home/components/MealPlanHero.jsx:22-24 | from a valid index: the previous index, wrapping from the first recipe to the last, always a valid index |
| MealPlanHero.ArrowsInverse | src/pages/dashboard-home/components/MealPlanHero.jsx:18-24 | the left and right arrows undo each other on every valid index |
| MealPlanHero.ForwardAdd | src/pages/dashboard-home/components/MealPlanHero.jsx:18-20 | pressing the right arrow a times and then b times is pressing it a + b times |
| MealPlanHero.ForwardNoWrap | src/pages/dashboard-home/components/MealPlanHero.jsx:18-20 | short of the last recipe, k presses move k places on |
| MealPlanHero.FullTurn | src/pages/dashboard-home/components/MealPlanHero.jsx:18-20 | as many presses as there are recipes return to the recipe one started from |
| MealPlanHero.OneActiveDot | src/pages/dashboard-home/components/MealPlanHero.jsx:151-159 | the dot of the recipe shown is highlighted, and no other dot is |
| MealPlanHero.ControlsShown | src/pages/dashboard-home/components/MealPlanHero.jsx:133 | arrows and dots are rendered exactly for more than one recipe |
| MealPlanHero.ShownArrowsMove | src/pages/dashboard-home/components/MealPlanHero.jsx:133-151 | wherever the arrows are rendered the plan is non-empty, so the slide arithmetic is defined, and each arrow moves to a different valid recipe |
| MealPlanHero.Carousel.constructor | src/pages/dashboard-home/components/MealPlanHero.jsx:7 | the carousel starts at the first recipe |
| MealPlanHero.Carousel.Next | src/pages/dashboard-home/components/MealPlanHero.jsx:18-20 | the index moves to the next slide, and a valid index stays valid |
| MealPlanHero.Carousel.Prev | src/pages/dashboard-home/components/MealPlanHero.jsx:22-24 | the index moves to the previous slide, and a valid index stays valid |
| MealPlanHero.Carousel.DotClick | src/pages/dashboard-home/components/MealPlanHero.jsx:156 | a click on a dot shows that dot's recipe |
| Dashboard.DismissNotification | src/pages/dashboard-home/index.jsx:181-183 | no notification with that id remains, nothing new appears, and every other notification stays |
| Dashboard.DismissAppend | src/pages/dashboard-home/index.jsx:181-183 | dismissal works piece by piece, so what stays keeps its order |
| Dashboard.DismissAbsent | src/pages/dashboard-home/index.jsx:181-183 | dismissing an id no notification has leaves the list as it is |
| Dashboard.DismissTwice | src/pages/dashboard-home/index.jsx:181-183 | dismissing the same id twice is dismissing it once |
| Dashboard.DismissAsBanner | src/pages/dashboard-home/index.jsx:181-183 | the page's list after a dismissal is what the banner shows after the same dismissal |
| Dashboard.SetFavorite | src/pages/dashboard-home/index.jsx:196-208 | the same number of recipes; those with that id take the flag and keep every other field; every other recipe is kept |
| Dashboard.SetFavoriteTwice | src/pages/dashboard-home/index.jsx:193-210 | setting the same flag twice is setting it once |
| Dashboard.SetFavoriteLastWins | src/pages/dashboard-home/index.jsx:193-210 | of two clicks on the same recipe, the later decides |
| Dashboard.SetFavoriteCommutes | src/pages/dashboard-home/index.jsx:193-210 | clicks on different recipes can be made in either order |
| Dashboard.FavoriteUndo | src/pages/dashboard-home/index.jsx:193-210 | flipping a flag and flipping it back restores the list |
| Dashboard.FavoriteInPlan | src/pages/dashboard-home/index.jsx:194-201 | a loaded plan stays loaded, with its recipes updated and every other field kept; before loading the plan becomes an object without recipes |
| Dashboard.FavoriteInPlanTwice | src/pages/dashboard-home/index.jsx:194-201 | favouring the same recipe the same way twice is doing it once |
| Dashboard.DashboardHome.constructor | src/pages/dashboard-home/index.jsx:13-18 | the page starts not loading, with no plan, no savings, no notifications and no recent recipes |
| Dashboard.DashboardHome.BeginLoad | src/pages/dashboard-home/index.jsx:142 | the loading flag is raised |
| Dashboard.DashboardHome.LoadDone | src/pages/dashboard-home/index.jsx:143-149 | the plan, savings, notifications and recent recipes arrive and the flag drops |
| Dashboard.DashboardHome.NotificationDismiss | src/pages/dashboard-home/index.jsx:181-183 | the notifications become the list after the dismissal |
| Dashboard.DashboardHome.RecipeFavorite | src/pages/dashboard-home/index.jsx:193-210 | the flag is set on the plan and on the recent recipes alike |

## Left out

- Rendering is not modelled: JSX, CSS classes, icons, images, and purely presentational components such as headers, navigation bars, cards, grids, bottom sheets and empty states. Only the values the logic computes for them are modelled.
- Navigation is not modelled. `navigate(...)`, `window.location.href` assignments and the handlers that do nothing else (recipe details, quick actions, notification actions, the hero's recipe click, route and recipe shortcuts) are calls into the router or the browser.
- Timers and asynchrony are not modelled as such. Each simulated delay is split into a method for what happens before it and a method for what its callback does. Examples are the home page's `BeginLoad`/`LoadDone`, the location step's `Continue`/`CheckDone` and the budget step's `Complete`/`CreationDone`. The debounced search, the welcome animation and the exit fades of the wizard frame are dropped.
- Browser and library calls are not modelled: geolocation, `localStorage`, `navigator.share` and the clipboard, `URLSearchParams` and the URL kept in sync with the filters, `new Date()` and opening hours, and `Intl`/`toLocaleString`/`toFixed` formatting.
- `Date.now()` is not modelled; the id of a hand-added shopping item is a parameter (`ShoppingList.AddItemForm.Submit`).
- `Math.random` makes generating a new meal plan, pull-to-refresh and voice search nondeterministic, with no contract to state, so they are left out.
- Floating point is not modelled: IEEE-754 rounding, NaN propagation in sums, and rounding of `toFixed`, `Math.round(budget * 0.15)` and `Math.round(budget / size)`. Arithmetic is exact over the reals.
- JsText.ParseFloat: a literal is read as its exact value. A literal beyond the double range, such as `1e400`, stays finite instead of becoming Infinity. A long fraction is not rounded to the nearest double. `-0` and `0` are the same value.
- JsText.ToNumber: the same gap as `parseFloat`. Exact values are kept, with no overflow to Infinity and no rounding, and `-0` is `0`.
- JsText.ParseInt: reads decimal digits only. With no radix argument JavaScript reads a `0x` or `0X` prefix as hexadecimal, where the model reads `0` and stops. The number and range fields whose text reaches it never hold that prefix.
- FilterPanels.AdvancedFilterPanel.LocalFilterChange: `ok == false` stands for the error screen. The updater's TypeError is rethrown while rendering and reaches the error boundary in src/Routes.jsx:16, which replaces the page. The model keeps the old local copy, which the application no longer shows.
- FilterPanels.FilterPanel.FilterChange: the same holds for the shared panel. `ok == false` stands for the error screen that replaces it.
- LocalOffers.LocalOffersPage.Refilter: `ok == false` stands for the error screen. The TypeError thrown in the effect reaches the error boundary. The model keeps the old shown offers, which the application no longer shows.
- `toLowerCase` is modelled on ASCII letters only; locale-sensitive and non-ASCII case mapping is not modelled.
- `localeCompare` is not modelled. The sidebar's name order is a parameter `nameRank` mapping names to a real key, so only the shape of the sort is proved for it.
- String lengths count characters, not UTF-16 code units.
- The mock data arrays are not part of the model; the sample list a page starts from is a parameter of its constructor.
- The mock route optimisation on the store map, which subtracts fixed amounts from time and distance, is trivial display arithmetic and is left out. So are the shopping list header's savings percentage and the store optimisation banner.
- Loading and refreshing flags that only drive spinners are left out, except where a handler's guard reads them.
- Dashboard.DashRecipe: keeps only the recipe fields the page reads or sets; image, rating and tags are not modelled.
- SavingsSummary.ProgressPercentage: requires a positive weekly budget; with a budget of zero JavaScript yields Infinity or NaN, which the model does not represent.
- OnboardingContainer.Progress: requires a positive number of steps; the wizard always passes four.
- MealPlanHero.NextSlide: requires at least one recipe, because `% 0` is NaN in JavaScript. The arrows are only rendered for more than one recipe (MealPlanHero.ControlsShown, MealPlanHero.ShownArrowsMove). MealPlanHero.PrevSlide and the carousel's `Next` and `Prev` carry the same requirement.
- BudgetSetup.PerPerson: requires a non-zero household size, which the page's `|| 2` default guarantees. Its closed form is stated for positive sizes only.
- DietaryPreferences.AllergenChange: the `|| []` fallback for a missing allergen list is not modelled, because the form data always holds a list.
