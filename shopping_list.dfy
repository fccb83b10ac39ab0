/**
 * The shopping list: its items, their totals, the two grouped views (by store and by
 * category), the updaters behind the item actions, one item row with its own quantity, and
 * the form that adds an item by hand.
 */
module ShoppingList {
  import opened JsText
  import opened Seqs
  import opened FilterState
  import opened TextSearch

  datatype ShoppingItem = ShoppingItem(
    id: int,
    name: string,
    brand: string,
    quantity: int,
    unit: string,
    price: real,
    originalPrice: real,
    category: string,
    store: string,
    hasOffer: bool,
    completed: bool,
    note: string)

  // ---------------------------------------------------------------- totals

  function LineCost(x: ShoppingItem): real { x.price * x.quantity as real }
  function LineOriginal(x: ShoppingItem): real { x.originalPrice * x.quantity as real }
  function LineSavings(x: ShoppingItem): real { LineOriginal(x) - LineCost(x) }

  function TotalCost(items: seq<ShoppingItem>): real { Sum(items, LineCost) }
  function OriginalTotal(items: seq<ShoppingItem>): real { Sum(items, LineOriginal) }

  /** `totalSavings`: the original total less the cost. */
  function TotalSavings(items: seq<ShoppingItem>): (r: real)
    ensures r == Sum(items, LineSavings)
  {
    SumDifference(items, LineOriginal, LineCost, LineSavings);
    OriginalTotal(items) - TotalCost(items)
  }

  // ---------------------------------------------------------------- grouped views

  /** One section of the grouped list. */
  datatype Section = Section(title: string, subtitle: string, items: seq<ShoppingItem>, totalCost: real)

  /** `${items.length} Artikel`. */
  function CountText(n: nat): (t: string)
    ensures LeadingDigits(t) == NatText(n)
  {
    LeadingDigitsPrefix(NatText(n), " Artikel");
    NatText(n) + " Artikel"
  }

  /** `Object.entries(grouped).map(...)`: a section per entry, titled by `title` of its key. */
  function ToSections(gs: seq<Group<ShoppingItem>>, title: string -> string): (r: seq<Section>)
    ensures |r| == |gs|
    ensures forall j :: 0 <= j < |gs| ==>
      r[j] == Section(title(gs[j].key), CountText(|gs[j].items|), gs[j].items, Sum(gs[j].items, LineCost))
  {
    if gs == [] then []
    else
      var g := gs[0];
      [Section(title(g.key), CountText(|g.items|), g.items, Sum(g.items, LineCost))] + ToSections(gs[1..], title)
  }

  function Titles(ss: seq<Section>): (ts: seq<string>)
    ensures |ts| == |ss| && forall j :: 0 <= j < |ss| ==> ts[j] == ss[j].title
  {
    if ss == [] then [] else [ss[0].title] + Titles(ss[1..])
  }

  /** The sum of the section totals. */
  function SectionsTotal(ss: seq<Section>): real {
    if ss == [] then 0.0 else ss[0].totalCost + SectionsTotal(ss[1..])
  }

  lemma {:induction false} SectionsTotalIsGroupsSum(gs: seq<Group<ShoppingItem>>, title: string -> string)
    ensures SectionsTotal(ToSections(gs, title)) == GroupsSum(gs, LineCost)
  {
    if gs != [] {
      SectionsTotalIsGroupsSum(gs[1..], title);
      assert ToSections(gs, title)[1..] == ToSections(gs[1..], title);
    }
  }

  function StoreOf(x: ShoppingItem): string { x.store }
  function StoreTitle(store: string): string { store }

  /** The view by store. */
  function StoreSections(items: seq<ShoppingItem>): seq<Section> {
    ToSections(GroupsOf(items, StoreOf), StoreTitle)
  }

  /** `groupItemsByStore`: the grouping `reduce`, then one section per entry. */
  method GroupItemsByStore(items: seq<ShoppingItem>) returns (sections: seq<Section>)
    ensures sections == StoreSections(items)
  {
    var grouped := GroupBy(items, StoreOf);
    sections := ToSections(grouped, StoreTitle);
  }

  /** The store view partitions the list: one section per store, each holding exactly that
      store's items in list order, and every item's store has a section. */
  lemma StoreSectionsPartition(items: seq<ShoppingItem>)
    ensures var ss := StoreSections(items);
      && Distinct(Titles(ss))
      && (forall j :: 0 <= j < |ss| ==> ss[j].items != [] && ss[j].items == Having(items, StoreOf, ss[j].title))
      && (forall i :: 0 <= i < |items| ==> items[i].store in Titles(ss))
  {
    var gs := GroupsOf(items, StoreOf);
    var ss := StoreSections(items);
    assert Titles(ss) == Keys(gs) by {
      assert forall j :: 0 <= j < |gs| ==> Titles(ss)[j] == Keys(gs)[j];
    }
    GroupsOfDistinct(items, StoreOf);
    GroupsOfHaving(items, StoreOf);
    GroupsOfKeys(items, StoreOf);
    forall j | 0 <= j < |ss| ensures ss[j].items != [] && ss[j].items == Having(items, StoreOf, ss[j].title) {
      assert ss[j].items == gs[j].items && ss[j].title == gs[j].key;
    }
  }

  /** The store sections come in the order in which their stores first occur in the list. */
  lemma StoreSectionsOrder(items: seq<ShoppingItem>)
    ensures var ss := StoreSections(items);
      forall j, l :: 0 <= j < l < |ss| ==>
        FirstIndex(items, StoreOf, ss[j].title) < FirstIndex(items, StoreOf, ss[l].title)
  {
    var gs := GroupsOf(items, StoreOf);
    GroupsOfSpec(items, StoreOf);
    assert FirstSeenOrder(gs, items, StoreOf);
  }

  /** Each section shows its item count and the cost of its items, and the section costs add
      up to the list's total cost. */
  lemma StoreSectionsTotals(items: seq<ShoppingItem>)
    ensures var ss := StoreSections(items);
      && (forall j :: 0 <= j < |ss| ==>
            ss[j].totalCost == TotalCost(ss[j].items) && ss[j].subtitle == CountText(|ss[j].items|))
      && SectionsTotal(ss) == TotalCost(items)
  {
    SectionsTotalIsGroupsSum(GroupsOf(items, StoreOf), StoreTitle);
    GroupsOfSum(items, StoreOf, LineCost);
  }

  /** A missing category is filed under `sonstiges`. */
  function CategoryKey(x: ShoppingItem): string {
    if x.category == "" then "sonstiges" else x.category
  }

  /** `categoryNames[category] || 'Sonstiges'`. */
  function CategoryTitle(k: string): (t: string)
    ensures !(k in {"milchprodukte", "obst-gemuese", "fleisch-fisch", "backwaren"}) ==> t == "Sonstiges"
  {
    match k
    case "milchprodukte" => "Milchprodukte"
    case "obst-gemuese" => "Obst & Gemüse"
    case "fleisch-fisch" => "Fleisch & Fisch"
    case "backwaren" => "Backwaren"
    case _ => "Sonstiges"
  }

  /** The view by category. */
  function CategorySections(items: seq<ShoppingItem>): seq<Section> {
    ToSections(GroupsOf(items, CategoryKey), CategoryTitle)
  }

  /** `groupItemsByCategory`. */
  method GroupItemsByCategory(items: seq<ShoppingItem>) returns (sections: seq<Section>)
    ensures sections == CategorySections(items)
  {
    var grouped := GroupBy(items, CategoryKey);
    sections := ToSections(grouped, CategoryTitle);
  }

  /** The category view partitions the list by category key (a missing category counting as
      `sonstiges`), in first-seen order, and the section costs add up to the total cost. */
  lemma CategorySectionsPartition(items: seq<ShoppingItem>)
    ensures var gs := GroupsOf(items, CategoryKey);
      var ss := CategorySections(items);
      && |ss| == |gs|
      && Distinct(Keys(gs))
      && (forall j :: 0 <= j < |ss| ==>
            && ss[j].title == CategoryTitle(gs[j].key)
            && ss[j].items != [] && ss[j].items == Having(items, CategoryKey, gs[j].key))
      && (forall i :: 0 <= i < |items| ==> CategoryKey(items[i]) in Keys(gs))
      && SectionsTotal(ss) == TotalCost(items)
  {
    GroupsOfSpec(items, CategoryKey);
    SectionsTotalIsGroupsSum(GroupsOf(items, CategoryKey), CategoryTitle);
    GroupsOfSum(items, CategoryKey, LineCost);
  }

  /** Two different categories without a name stay two sections, both titled `Sonstiges`. */
  lemma UnnamedCategoriesStaySeparate(items: seq<ShoppingItem>, a: nat, b: nat)
    requires a < |items| && b < |items|
    requires CategoryKey(items[a]) != CategoryKey(items[b])
    requires CategoryTitle(CategoryKey(items[a])) == "Sonstiges" && CategoryTitle(CategoryKey(items[b])) == "Sonstiges"
    ensures var gs := GroupsOf(items, CategoryKey);
      var ss := CategorySections(items);
      var j, l := FindKey(gs, CategoryKey(items[a])), FindKey(gs, CategoryKey(items[b]));
      && j < |ss| && l < |ss| && j != l
      && ss[j].title == "Sonstiges" && ss[l].title == "Sonstiges"
      && items[a] in ss[j].items && items[b] in ss[l].items
  {
    var gs := GroupsOf(items, CategoryKey);
    CategorySectionsPartition(items);
    var j, l := FindKey(gs, CategoryKey(items[a])), FindKey(gs, CategoryKey(items[b]));
    assert CategoryKey(items[a]) in Keys(gs) && CategoryKey(items[b]) in Keys(gs);
    assert j < |gs| && l < |gs|;
    HavingIn(items, CategoryKey, gs[j].key, items[a]);
    HavingIn(items, CategoryKey, gs[l].key, items[b]);
  }

  // ---------------------------------------------------------------- item updaters

  /** `handleToggleComplete`. */
  function ToggleComplete(items: seq<ShoppingItem>, id: int): (r: seq<ShoppingItem>)
    ensures |r| == |items|
    ensures forall i :: 0 <= i < |items| && items[i].id == id ==> r[i] == items[i].(completed := !items[i].completed)
    ensures forall i :: 0 <= i < |items| && items[i].id != id ==> r[i] == items[i]
  {
    seq(|items|, i requires 0 <= i < |items| =>
      if items[i].id == id then items[i].(completed := !items[i].completed) else items[i])
  }

  lemma ToggleCompleteTwice(items: seq<ShoppingItem>, id: int)
    ensures ToggleComplete(ToggleComplete(items, id), id) == items
  {
  }

  /** `handleQuantityChange`: only the quantity of the matching items changes. */
  function SetQuantity(items: seq<ShoppingItem>, id: int, q: int): (r: seq<ShoppingItem>)
    ensures |r| == |items|
    ensures forall i :: 0 <= i < |items| && items[i].id == id ==> r[i] == items[i].(quantity := q)
    ensures forall i :: 0 <= i < |items| && items[i].id != id ==> r[i] == items[i]
  {
    seq(|items|, i requires 0 <= i < |items| => if items[i].id == id then items[i].(quantity := q) else items[i])
  }

  function OtherId(id: int): ShoppingItem -> bool { (x: ShoppingItem) => x.id != id }
  function IsActive(x: ShoppingItem): bool { !x.completed }
  function IsCompleted(x: ShoppingItem): bool { x.completed }

  /** `handleRemoveItem`: every item with that id goes, the rest stay in order. */
  function RemoveItem(items: seq<ShoppingItem>, id: int): (r: seq<ShoppingItem>)
    ensures forall i :: 0 <= i < |r| ==> r[i].id != id && r[i] in items
    ensures forall i :: 0 <= i < |items| && items[i].id != id ==> items[i] in r
  {
    Filter(items, OtherId(id))
  }

  /** `handleClearCompleted`: exactly the items still to buy remain, in order. */
  function ClearCompleted(items: seq<ShoppingItem>): (r: seq<ShoppingItem>)
    ensures forall i :: 0 <= i < |r| ==> !r[i].completed && r[i] in items
    ensures forall i :: 0 <= i < |items| && !items[i].completed ==> items[i] in r
  {
    Filter(items, IsActive)
  }

  predicate AllCompleted(items: seq<ShoppingItem>) {
    forall i :: 0 <= i < |items| ==> items[i].completed
  }

  /** `handleBulkCheck`: unchecks everything when everything is checked, otherwise checks
      everything; nothing else changes. */
  function BulkCheck(items: seq<ShoppingItem>): (r: seq<ShoppingItem>)
    ensures |r| == |items|
    ensures forall i :: 0 <= i < |items| ==> r[i] == items[i].(completed := !AllCompleted(items))
    ensures AllCompleted(items) ==> forall i :: 0 <= i < |r| ==> !r[i].completed
    ensures !AllCompleted(items) ==> AllCompleted(r)
  {
    var all := AllCompleted(items);
    seq(|items|, i requires 0 <= i < |items| => items[i].(completed := !all))
  }

  /** Checking everything of a list that is not all checked, then bulk-checking again,
      unchecks everything. */
  lemma BulkCheckTwice(items: seq<ShoppingItem>)
    requires items != [] && !AllCompleted(items)
    ensures forall i :: 0 <= i < |items| ==> BulkCheck(BulkCheck(items))[i] == items[i].(completed := false)
  {
  }

  /** `activeItems` and `completedItems`. */
  function ActiveItems(items: seq<ShoppingItem>): seq<ShoppingItem> { Filter(items, IsActive) }
  function CompletedItems(items: seq<ShoppingItem>): seq<ShoppingItem> { Filter(items, IsCompleted) }

  /** The two lists split the shopping list: every item is in exactly one of them, as often
      as in the list. */
  lemma ActiveCompletedPartition(items: seq<ShoppingItem>)
    ensures multiset(ActiveItems(items)) + multiset(CompletedItems(items)) == multiset(items)
    ensures |ActiveItems(items)| + |CompletedItems(items)| == |items|
    ensures ClearCompleted(items) == ActiveItems(items)
  {
    FilterSplit(items, IsActive, IsCompleted);
  }

  /** `handleAddItem` appends; the totals grow by the new line. */
  lemma AddItemTotals(items: seq<ShoppingItem>, x: ShoppingItem)
    ensures TotalCost(items + [x]) == TotalCost(items) + LineCost(x)
    ensures TotalSavings(items + [x]) == TotalSavings(items) + LineSavings(x)
  {
    SumAppend(items, [x], LineCost);
    SumAppend(items, [x], LineSavings);
    assert Sum([x], LineCost) == LineCost(x);
    assert Sum([x], LineSavings) == LineSavings(x);
  }

  /** The page's list and the view it shows. */
  class ShoppingListPage {
    var shoppingItems: seq<ShoppingItem>
    var viewMode: string

    constructor(mock: seq<ShoppingItem>)
      ensures shoppingItems == mock && viewMode == "store"
    {
      shoppingItems := mock;
      viewMode := "store";
    }

    /** The sections shown for the current view. */
    method Grouped() returns (sections: seq<Section>)
      ensures viewMode == "store" ==> sections == StoreSections(shoppingItems)
      ensures viewMode != "store" ==> sections == CategorySections(shoppingItems)
    {
      if viewMode == "store" {
        sections := GroupItemsByStore(shoppingItems);
      } else {
        sections := GroupItemsByCategory(shoppingItems);
      }
    }

    method ToggleCompleteItem(id: int)
      modifies this
      ensures shoppingItems == ToggleComplete(old(shoppingItems), id) && viewMode == old(viewMode)
    {
      shoppingItems := ToggleComplete(shoppingItems, id);
    }

    method QuantityChange(id: int, q: int)
      modifies this
      ensures shoppingItems == SetQuantity(old(shoppingItems), id, q) && viewMode == old(viewMode)
    {
      shoppingItems := SetQuantity(shoppingItems, id, q);
    }

    method Remove(id: int)
      modifies this
      ensures shoppingItems == RemoveItem(old(shoppingItems), id) && viewMode == old(viewMode)
    {
      shoppingItems := RemoveItem(shoppingItems, id);
    }

    method CheckAll()
      modifies this
      ensures shoppingItems == BulkCheck(old(shoppingItems)) && viewMode == old(viewMode)
    {
      shoppingItems := BulkCheck(shoppingItems);
    }

    method ClearDone()
      modifies this
      ensures shoppingItems == ClearCompleted(old(shoppingItems)) && viewMode == old(viewMode)
    {
      shoppingItems := ClearCompleted(shoppingItems);
    }

    method AddItem(x: ShoppingItem)
      modifies this
      ensures shoppingItems == old(shoppingItems) + [x] && viewMode == old(viewMode)
    {
      shoppingItems := shoppingItems + [x];
    }
  }

  // ---------------------------------------------------------------- one item row

  /** The three amounts a row shows. */
  datatype RowAmounts = RowAmounts(totalPrice: real, originalPrice: real, savings: real)

  function Amounts(x: ShoppingItem, quantity: int): (a: RowAmounts)
    ensures a.savings == a.originalPrice - a.totalPrice
    ensures quantity >= 1 ==> (a.savings > 0.0 <==> x.originalPrice > x.price)
  {
    var total := x.price * quantity as real;
    var original := x.originalPrice * quantity as real;
    assert original - total == (x.originalPrice - x.price) * quantity as real;
    RowAmounts(total, original, original - total)
  }

  /** A row of the list: it keeps its own quantity, starting from the item's. */
  class ItemRow {
    const item: ShoppingItem
    var quantity: int

    constructor(x: ShoppingItem)
      ensures item == x && quantity == x.quantity
    {
      item := x;
      quantity := x.quantity;
    }

    /** `handleQuantityChange`: a quantity below one is ignored; otherwise the row takes it
        and reports it once to the page as `(item.id, q)`. */
    method QuantityChange(q: int) returns (reported: Option<(int, int)>)
      modifies this
      ensures q < 1 ==> quantity == old(quantity) && reported.None?
      ensures q >= 1 ==> quantity == q && reported == Some((item.id, q))
    {
      if q < 1 {
        return None;
      }
      quantity := q;
      reported := Some((item.id, q));
    }

    /** The minus button, disabled at one or less. */
    method Decrement() returns (reported: Option<(int, int)>)
      modifies this
      ensures old(quantity) <= 1 ==> quantity == old(quantity) && reported.None?
      ensures old(quantity) > 1 ==> quantity == old(quantity) - 1 && reported == Some((item.id, quantity))
      ensures old(quantity) >= 1 ==> quantity >= 1
    {
      if quantity <= 1 {
        return None;
      }
      reported := QuantityChange(quantity - 1);
    }

    /** The plus button. */
    method Increment() returns (reported: Option<(int, int)>)
      modifies this
      ensures old(quantity) >= 0 ==> quantity == old(quantity) + 1 && reported == Some((item.id, quantity))
      ensures old(quantity) < 0 ==> quantity == old(quantity) && reported.None?
    {
      reported := QuantityChange(quantity + 1);
    }
  }

  // ---------------------------------------------------------------- the add-item form

  const ManualStore: string := "Manuell hinzugefügt"

  /** The unit the form starts with. */
  const DefaultUnit: string := "Stück"

  /** The names the form suggests from. */
  const ItemSuggestionTexts: seq<string> := [
    "Milch 1,5% Fett", "Vollkornbrot", "Bananen", "Hähnchenbrust",
    "Joghurt natur", "Tomaten", "Käse Gouda", "Eier Freiland"]

  /** The suggestions for what has been typed: none for fewer than two characters. */
  function ItemSuggestions(all: seq<string>, value: string): (r: seq<string>)
    ensures |value| <= 1 ==> r == []
    ensures |r| <= 5
    ensures forall i :: 0 <= i < |r| ==> r[i] in all && Includes(Lower(r[i]), Lower(value))
    ensures |value| > 1 ==> r <= Filter(all, SuggestionTest(value))
    ensures |value| > 1 ==> |r| == 5 || r == Filter(all, SuggestionTest(value))
  {
    if |value| > 1 then Suggestions(all, value) else []
  }

  /** The quantity field: `parseInt(text) || 1`. */
  function QuantityInput(text: string): (q: int)
    ensures q != 0
    ensures ParseInt(text).Finite? && ParseInt(text).value != 0 ==> q == ParseInt(text).value
    ensures !TruthyInt(ParseInt(text)) ==> q == 1
  {
    var p := ParseInt(text);
    if TruthyInt(p) then p.value else 1
  }

  /** Typing a positive number into the quantity field stores that number. */
  lemma QuantityInputOfNumber(n: nat)
    requires n >= 1
    ensures QuantityInput(IntText(n)) == n
  {
    ParseIntOfIntText(n);
  }

  /** The item the form builds. */
  function NewItem(now: int, name: string, quantity: int, unit: string, category: string, note: string): (x: ShoppingItem)
    ensures x.id == now && x.name == Trim(name) && x.note == Trim(note)
    ensures x.quantity == quantity && x.unit == unit
    ensures category == "" ==> x.category == "sonstiges"
    ensures category != "" ==> x.category == category
    ensures !x.completed && x.price == 0.0 && x.originalPrice == 0.0 && !x.hasOffer
    ensures x.store == ManualStore
    ensures LineCost(x) == 0.0 && LineSavings(x) == 0.0
  {
    ShoppingItem(now, Trim(name), "", quantity, unit, 0.0, 0.0,
      if category == "" then "sonstiges" else category, ManualStore, false, false, Trim(note))
  }

  class AddItemForm {
    var itemName: string
    var quantity: int
    var unit: string
    var category: string
    var note: string
    var suggestions: seq<string>
    /** The fixed list the suggestions are drawn from. */
    const suggestionTexts: seq<string>

    predicate Cleared()
      reads this
    {
      itemName == [] && quantity == 1 && unit == DefaultUnit && category == [] && note == [] && suggestions == []
    }

    constructor()
      ensures Cleared() && suggestionTexts == ItemSuggestionTexts
    {
      suggestionTexts := ItemSuggestionTexts;
      itemName, quantity, unit, category, note, suggestions := [], 1, DefaultUnit, [], [], [];
    }

    /** `handleItemNameChange`. */
    method ItemNameChange(value: string)
      modifies this`itemName, this`suggestions
      ensures itemName == value && suggestions == ItemSuggestions(suggestionTexts, value)
    {
      itemName := value;
      suggestions := ItemSuggestions(suggestionTexts, value);
    }

    /** `handleSuggestionClick`. */
    method SuggestionClick(s: string)
      modifies this`itemName, this`suggestions
      ensures itemName == s && suggestions == []
    {
      itemName := s;
      suggestions := [];
    }

    method QuantityTyped(text: string)
      modifies this`quantity
      ensures quantity == QuantityInput(text)
    {
      quantity := QuantityInput(text);
    }

    /** Puts every field back to its starting value. */
    method Clear()
      modifies this
      ensures Cleared()
    {
      itemName, quantity, unit, category, note, suggestions := [], 1, DefaultUnit, [], [], [];
    }

    /** `handleSubmit` at time `now`: a blank name adds nothing and changes nothing;
        otherwise the new item is handed to the page, the form is cleared and closes. */
    method Submit(now: int) returns (added: Option<ShoppingItem>, closed: bool)
      modifies this
      ensures Trim(old(itemName)) == "" ==> added.None? && !closed
      ensures Trim(old(itemName)) == "" ==> unchanged(this)
      ensures Trim(old(itemName)) != "" ==>
        && added == Some(NewItem(now, old(itemName), old(quantity), old(unit), old(category), old(note)))
        && closed && Cleared()
    {
      if Trim(itemName) == "" {
        return None, false;
      }
      added := Some(NewItem(now, itemName, quantity, unit, category, note));
      Clear();
      closed := true;
    }
  }

  /** A name of white space only adds nothing. */
  lemma BlankNameAddsNothing(name: string)
    requires forall i :: 0 <= i < |name| ==> IsSpace(name[i])
    ensures Trim(name) == ""
  {
    TrimSpec(name);
  }
}
