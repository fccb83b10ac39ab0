/**
 * The chip bar of the recipe search page: every selected filter value becomes a removable
 * chip carrying its category, its value, a readable label and a unique key.
 */
module RecipeFilterChips {
  import opened FilterState

  /** One chip: its category, its value, the label shown and the rendering key. */
  datatype Chip = Chip(category: string, value: string, caption: string, key: string)

  /** The label tables, by category and then by value. */
  type Labels = map<string, map<string, string>>

  const FilterLabels: Labels := map[
    "dietary" := map["vegetarian" := "Vegetarisch", "vegan" := "Vegan", "glutenfree" := "Glutenfrei",
                     "lactosefree" := "Laktosefrei", "lowcarb" := "Low Carb"],
    "cuisine" := map["italian" := "Italienisch", "asian" := "Asiatisch", "german" := "Deutsch",
                     "mediterranean" := "Mediterran", "mexican" := "Mexikanisch"],
    "difficulty" := map["easy" := "Einfach", "medium" := "Mittel", "hard" := "Schwer"],
    "cookingTime" := map["0-15" := "Unter 15 Min", "15-30" := "15-30 Min", "30-60" := "30-60 Min",
                         "60+" := "Über 60 Min"],
    "priceRange" := map["0-5" := "Unter 5€", "5-10" := "5€-10€", "10-15" := "10€-15€", "15+" := "Über 15€"]]

  /** `filterLabels?.[category]?.[value] || value`: a non-empty label from the table, or else
      the raw value. */
  function Label(labels: Labels, category: string, value: string): (l: string)
    ensures category in labels && value in labels[category] && labels[category][value] != "" ==>
      l == labels[category][value]
    ensures !(category in labels && value in labels[category]) ==> l == value
  {
    if category in labels && value in labels[category] && labels[category][value] != "" then
      labels[category][value]
    else value
  }

  function MakeChip(labels: Labels, category: string, value: string): Chip {
    Chip(category, value, Label(labels, category, value), category + "-" + value)
  }

  /** The chips of one list entry, one per element in list order. */
  function ListChips(labels: Labels, category: string, items: seq<string>): (cs: seq<Chip>)
    ensures |cs| == |items|
    ensures forall j :: 0 <= j < |items| ==> cs[j] == MakeChip(labels, category, items[j])
  {
    if items == [] then [] else ListChips(labels, category, items[..|items| - 1]) + [MakeChip(labels, category, items[|items| - 1])]
  }

  /** The chips of one entry: a list gives one per element, a truthy text gives one, an
      empty text gives none. */
  function EntryChips(labels: Labels, category: string, v: FilterValue): seq<Chip> {
    if v.Multi? then ListChips(labels, category, v.items)
    else if v.text != "" then [MakeChip(labels, category, v.text)]
    else []
  }

  /** The chips of the entries named by `keys`, in that order. */
  function ChipsOf(labels: Labels, f: Filters, keys: seq<string>): seq<Chip>
    requires forall k :: k in keys ==> k in f
  {
    if keys == [] then []
    else ChipsOf(labels, f, keys[..|keys| - 1]) + EntryChips(labels, keys[|keys| - 1], f[keys[|keys| - 1]])
  }

  /** The inner `forEach` of `getFilterChips`: pushes one chip per element of a list entry. */
  method PushListChips(chips: seq<Chip>, labels: Labels, category: string, items: seq<string>) returns (out: seq<Chip>)
    ensures out == chips + ListChips(labels, category, items)
  {
    out := chips;
    var j := 0;
    while j < |items|
      invariant 0 <= j <= |items|
      invariant out == chips + ListChips(labels, category, items[..j])
    {
      var value := items[j];
      out := out + [Chip(category, value, Label(labels, category, value), category + "-" + value)];
      assert items[..j + 1][..j] == items[..j];
      j := j + 1;
    }
    assert items[..j] == items;
  }

  /** The body of the outer `forEach` of `getFilterChips` for one entry: a chip per element
      of a list, one chip for a non-empty text, none for an empty one. */
  method PushEntryChips(chips: seq<Chip>, labels: Labels, category: string, values: FilterValue) returns (out: seq<Chip>)
    ensures out == chips + EntryChips(labels, category, values)
  {
    out := chips;
    if values.Multi? {
      out := PushListChips(out, labels, category, values.items);
    } else if values.text != "" {
      var value := values.text;
      out := out + [Chip(category, value, Label(labels, category, value), category + "-" + value)];
    }
  }

  /** The chips of one more key are those of the keys before it and then its own. */
  lemma ChipsOfPrefix(labels: Labels, f: Filters, keys: seq<string>, i: nat)
    requires forall k :: k in keys ==> k in f
    requires i < |keys|
    ensures ChipsOf(labels, f, keys[..i + 1]) == ChipsOf(labels, f, keys[..i]) + EntryChips(labels, keys[i], f[keys[i]])
  {
    assert keys[..i + 1][..i] == keys[..i];
  }

  /** `getFilterChips`: walks the entries in object order and pushes the chips of each. */
  method GetFilterChips(labels: Labels, f: Filters, keys: seq<string>) returns (chips: seq<Chip>)
    requires forall k :: k in keys ==> k in f
    ensures chips == ChipsOf(labels, f, keys)
  {
    chips := [];
    var i := 0;
    while i < |keys|
      invariant 0 <= i <= |keys|
      invariant chips == ChipsOf(labels, f, keys[..i])
    {
      chips := PushEntryChips(chips, labels, keys[i], f[keys[i]]);
      ChipsOfPrefix(labels, f, keys, i);
      i := i + 1;
    }
    assert keys[..i] == keys;
  }

  /** Every chip names a category of the filters, a value selected under it, its label, and
      the key `category-value`. */
  lemma {:induction false} ChipsMeaning(labels: Labels, f: Filters, keys: seq<string>)
    requires forall k :: k in keys ==> k in f
    ensures forall n :: 0 <= n < |ChipsOf(labels, f, keys)| ==>
      var c := ChipsOf(labels, f, keys)[n];
      && c.category in keys
      && c.key == c.category + "-" + c.value
      && c.caption == Label(labels, c.category, c.value)
      && (f[c.category].Multi? ==> c.value in f[c.category].items)
      && (f[c.category].Single? ==> c.value == f[c.category].text && c.value != "")
  {
    if keys != [] {
      var init := keys[..|keys| - 1];
      var last := keys[|keys| - 1];
      ChipsMeaning(labels, f, init);
      var a: seq<Chip> := ChipsOf(labels, f, init);
      var b: seq<Chip> := EntryChips(labels, last, f[last]);
      assert ChipsOf(labels, f, keys) == a + b;
      forall n | |a| <= n < |a| + |b|
        ensures (a + b)[n].category == last
        ensures (a + b)[n].key == last + "-" + (a + b)[n].value
        ensures (a + b)[n].caption == Label(labels, last, (a + b)[n].value)
        ensures f[last].Multi? ==> (a + b)[n].value in f[last].items
        ensures f[last].Single? ==> (a + b)[n].value == f[last].text && f[last].text != ""
      {
        assert (a + b)[n] == b[n - |a|];
      }
      forall n | 0 <= n < |a| ensures (a + b)[n].category in keys {
        assert a[n].category in init;
      }
    }
  }

  /** One entry gives as many chips as it contributes to the count. */
  lemma EntryChipsCount(labels: Labels, category: string, v: FilterValue)
    ensures |EntryChips(labels, category, v)| == Contribution(v)
  {
  }

  /** The count over keys is the count over all but the last plus the last one's part. */
  lemma LastKeyCount(f: Filters, keys: seq<string>)
    requires forall k :: k in keys ==> k in f
    requires keys != []
    ensures ActiveCount(f, keys) == ActiveCount(f, keys[..|keys| - 1]) + Contribution(f[keys[|keys| - 1]])
  {
    var init := keys[..|keys| - 1];
    var last := keys[|keys| - 1];
    assert keys == init + [last];
    ActiveCountAppend(f, init, [last]);
    assert ActiveCount(f, [last]) == Contribution(f[last]) by {
      assert [last][1..] == [];
    }
  }

  /** The number of chips is the page's active-filter count for the same filters. */
  lemma {:induction false} ChipCountIsActiveCount(labels: Labels, f: Filters, keys: seq<string>)
    requires forall k :: k in keys ==> k in f
    ensures |ChipsOf(labels, f, keys)| == ActiveCount(f, keys)
  {
    if keys != [] {
      var init := keys[..|keys| - 1];
      var last := keys[|keys| - 1];
      ChipCountIsActiveCount(labels, f, init);
      assert ChipsOf(labels, f, keys) == ChipsOf(labels, f, init) + EntryChips(labels, last, f[last]);
      EntryChipsCount(labels, last, f[last]);
      LastKeyCount(f, keys);
    }
  }

  /** What the bar shows: the "add filter" button when there is no chip, the chip list and
      its count otherwise. */
  datatype ChipBar = AddFilterButton | ActiveChips(count: nat, chips: seq<Chip>)

  function Bar(chips: seq<Chip>): (b: ChipBar)
    ensures b.AddFilterButton? <==> chips == []
    ensures b.ActiveChips? ==> b.count == |chips| > 0 && b.chips == chips
  {
    if |chips| > 0 then ActiveChips(|chips|, chips) else AddFilterButton
  }

  /** The bar offers "add filter" exactly when the active-filter count is zero. */
  lemma BarForFilters(labels: Labels, f: Filters, keys: seq<string>)
    requires forall k :: k in keys ==> k in f
    ensures Bar(ChipsOf(labels, f, keys)).AddFilterButton? <==> ActiveCount(f, keys) == 0
  {
    ChipCountIsActiveCount(labels, f, keys);
  }
}
