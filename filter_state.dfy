/**
 * Filter state as the pages hold it: a JavaScript object from category names to either a
 * list of selected values (checkbox groups) or a single value (selects, inputs). The helpers
 * here give the JavaScript meaning of the few operations the pages apply to such a value
 * without first checking its shape (truthiness, `.length`, `.includes`, spreading, `.filter`,
 * `String(...)`).
 */
module FilterState {
  import opened JsText
  import opened Seqs

  datatype Option<T> = None | Some(value: T)

  /** A call either returns a value or throws a TypeError (a method missing on the value). */
  datatype Outcome<T> = Done(value: T) | Thrown

  datatype FilterValue = Multi(items: seq<string>) | Single(text: string)

  type Filters = map<string, FilterValue>

  /** Arrays are always truthy; a string is truthy unless it is empty. */
  predicate Truthy(v: FilterValue) {
    v.Multi? || v.text != ""
  }

  /** `filters?.[c]` is truthy: the key is present and its value is truthy. */
  predicate Set(f: Filters, c: string) {
    c in f && Truthy(f[c])
  }

  /** `v.length`: the number of entries of a list, the number of characters of a string. */
  function LengthOf(v: FilterValue): nat {
    if v.Multi? then |v.items| else |v.text|
  }

  /** `v.includes(x)`: membership for a list, substring search for a string. */
  predicate HasItem(v: FilterValue, x: string) {
    if v.Multi? then x in v.items else Includes(v.text, x)
  }

  /** `String(v)`: a list is joined with commas. */
  function TextOf(v: FilterValue): string {
    if v.Multi? then Join(v.items, ",") else v.text
  }

  /** `[...v]`: the entries of a list, the characters of a string. */
  function Spread(v: FilterValue): seq<string> {
    if v.Multi? then v.items else Chars(v.text)
  }

  /** `filters[c] || []`. */
  function ValueOr(f: Filters, c: string): (v: FilterValue)
    ensures Truthy(v) || v == Multi([])
  {
    if Set(f, c) then f[c] else Multi([])
  }

  /** The test `item => item !== x`. */
  function Other(x: string): string -> bool {
    y => y != x
  }

  /** Every occurrence of `x` removed from `s`, the rest kept in order: the list
      `s.filter(item => item !== x)`. */
  function RemoveAll(s: seq<string>, x: string): (r: seq<string>)
    ensures |r| <= |s|
    ensures forall y :: y in r <==> y in s && y != x
    ensures r == Filter(s, Other(x))
  {
    if s == [] then [] else (if s[0] == x then [] else [s[0]]) + RemoveAll(s[1..], x)
  }

  /** Removing a value that is absent changes nothing. */
  lemma RemoveAllAbsent(s: seq<string>, x: string)
    requires x !in s
    ensures RemoveAll(s, x) == s
  {
    FilterAll(s, Other(x));
  }

  /** Removing a value just appended to a list that lacked it gives the list back. */
  lemma RemoveAllLast(xs: seq<string>, x: string)
    requires x !in xs
    ensures RemoveAll(xs + [x], x) == xs
  {
    RemoveAllAppend(xs, [x], x);
    RemoveAllAbsent(xs, x);
    assert RemoveAll([x], x) == [];
  }

  /** Removal distributes over concatenation. */
  lemma RemoveAllAppend(a: seq<string>, b: seq<string>, x: string)
    ensures RemoveAll(a + b, x) == RemoveAll(a, x) + RemoveAll(b, x)
  {
    FilterAppend(a, b, Other(x));
  }

  /** `v.filter(item => item !== x)`: strings have no `filter` method. */
  function Without(v: FilterValue, x: string): (r: Outcome<FilterValue>)
    ensures r.Done? <==> v.Multi?
    ensures r.Done? ==> r.value.Multi? && x !in r.value.items
  {
    if v.Multi? then Done(Multi(RemoveAll(v.items, x))) else Thrown
  }

  /** `filters[c].filter(...).length` after removing `x` from a list: removing an absent
      value from a list leaves it as it was. */
  lemma WithoutAbsent(v: FilterValue, x: string)
    requires v.Multi? && x !in v.items
    ensures Without(v, x) == Done(v)
  {
    RemoveAllAbsent(v.items, x);
  }

  // ---------------------------------------------------------------- ranges

  /** The range test of the filter pipelines: `const [min, max] = text.split('-').map(Number)`,
      then `min <= x && x <= max` when `max` is truthy and `x >= min` otherwise. */
  predicate InRange(x: real, text: string) {
    var parts := Split(text, '-');
    var lo := ToNumber(parts[0]);
    if |parts| > 1 && TruthyNum(ToNumber(parts[1])) then AtLeast(x, lo) && AtMost(x, ToNumber(parts[1]))
    else AtLeast(x, lo)
  }

  lemma DigitsWithoutDash(d: string)
    requires AllDigits(d)
    ensures '-' !in d
  {
    forall i | 0 <= i < |d| ensures d[i] != '-' {
      assert IsDigit(d[i]);
    }
  }

  /** A range `"a-b"` of decimal numbers with a non-zero upper bound is inclusive at both
      ends. */
  lemma InRangeBetween(x: real, a: string, b: string)
    requires a != [] && b != [] && AllDigits(a) && AllDigits(b) && DigitsValue(b) != 0
    ensures InRange(x, a + "-" + b) <==> DigitsValue(a) as real <= x <= DigitsValue(b) as real
  {
    DigitsWithoutDash(a);
    DigitsWithoutDash(b);
    SplitPair(a, b, '-');
    assert a + "-" + b == a + ['-'] + b;
    NumberOfDigits(a);
    NumberOfDigits(b);
    RangeOfParts(x, a + "-" + b, ToNumber(a), ToNumber(b));
  }

  /** The range test on a text that splits into two parts, given their values. */
  lemma RangeOfParts(x: real, text: string, lo: Num, hi: Num)
    requires var parts := Split(text, '-'); |parts| == 2 && ToNumber(parts[0]) == lo && ToNumber(parts[1]) == hi
    ensures InRange(x, text) <==> if TruthyNum(hi) then AtLeast(x, lo) && AtMost(x, hi) else AtLeast(x, lo)
  {
  }

  /** A range without an upper bound (`"30"`) keeps everything from its lower bound up. */
  lemma InRangeFrom(x: real, a: string)
    requires a != [] && AllDigits(a)
    ensures InRange(x, a) <==> DigitsValue(a) as real <= x
  {
    DigitsWithoutDash(a);
    SplitWithout(a, '-');
    NumberOfDigits(a);
  }

  /** A zero upper bound is falsy, so `"a-0"` also keeps everything from `a` up. */
  lemma InRangeZeroMax(x: real, a: string, z: string)
    requires a != [] && AllDigits(a)
    requires z != [] && AllDigits(z) && DigitsValue(z) == 0
    ensures InRange(x, a + "-" + z) <==> DigitsValue(a) as real <= x
  {
    DigitsWithoutDash(a);
    DigitsWithoutDash(z);
    SplitPair(a, z, '-');
    NumberOfDigits(a);
    NumberOfDigits(z);
  }

  /** An open-ended value such as `"20+"` or `"120+"` has no `-`, so its lower bound is `NaN`
      and no value is in the range. */
  lemma InRangeOpenEnded(x: real, d: string)
    requires AllDigits(d)
    ensures !InRange(x, d + "+")
  {
    DigitsWithoutDash(d);
    assert '-' !in d + "+";
    SplitWithout(d + "+", '-');
    PlusSuffixIsNaN(d);
  }

  // ---------------------------------------------------------------- active-filter count

  /** `keys` lists every key of `f` exactly once: the enumeration order of the object. */
  ghost predicate Enumerates(keys: seq<string>, f: Filters) {
    (forall i, j :: 0 <= i < j < |keys| ==> keys[i] != keys[j])
    && (forall k :: k in f <==> k in keys)
  }

  /** What one entry contributes to an active-filter count: its length for a list, one for
      a truthy single value. */
  function Contribution(v: FilterValue): nat {
    if v.Multi? then |v.items| else if v.text != "" then 1 else 0
  }

  /** The `reduce` over the entries of `f`, in the order `keys`. */
  function ActiveCount(f: Filters, keys: seq<string>): nat
    requires forall k :: k in keys ==> k in f
  {
    if keys == [] then 0 else Contribution(f[keys[0]]) + ActiveCount(f, keys[1..])
  }

  /** The count is zero exactly when no entry holds a selected value. */
  lemma {:induction false} ActiveCountZero(f: Filters, keys: seq<string>)
    requires forall k :: k in keys ==> k in f
    ensures ActiveCount(f, keys) == 0 <==> forall i :: 0 <= i < |keys| ==> Contribution(f[keys[i]]) == 0
  {
    if keys != [] {
      ActiveCountZero(f, keys[1..]);
      assert forall i :: 1 <= i < |keys| ==> keys[i] == keys[1..][i - 1];
    }
  }

  lemma {:induction false} ActiveCountAppend(f: Filters, a: seq<string>, b: seq<string>)
    requires forall k :: k in a + b ==> k in f
    ensures ActiveCount(f, a + b) == ActiveCount(f, a) + ActiveCount(f, b)
  {
    if a != [] {
      assert (a + b)[1..] == a[1..] + b;
      ActiveCountAppend(f, a[1..], b);
    } else {
      assert a + b == b;
    }
  }

  /** The count over distinct keys is the contribution of one of them plus the count over
      the others, whichever position that key has. */
  lemma {:induction false} ActiveCountSplit(f: Filters, keys: seq<string>, k: string)
    requires forall x :: x in keys ==> x in f
    requires Distinct(keys)
    ensures Distinct(RemoveAll(keys, k))
    ensures ActiveCount(f, keys) == (if k in keys then Contribution(f[k]) else 0) + ActiveCount(f, RemoveAll(keys, k))
  {
    if keys != [] {
      ActiveCountSplit(f, keys[1..], k);
      var rest := RemoveAll(keys[1..], k);
      if keys[0] == k {
        assert k !in keys[1..];
        RemoveAllAbsent(keys[1..], k);
        assert RemoveAll(keys, k) == keys[1..];
      } else {
        assert k in keys <==> k in keys[1..];
        assert RemoveAll(keys, k) == [keys[0]] + rest;
        assert keys[0] !in rest;
      }
    }
  }

  /** An entry outside the enumerated keys does not affect the count. */
  lemma {:induction false} ActiveCountFrame(f: Filters, g: Filters, keys: seq<string>)
    requires forall k :: k in keys ==> k in f && k in g && f[k] == g[k]
    ensures ActiveCount(f, keys) == ActiveCount(g, keys)
  {
    if keys != [] {
      ActiveCountFrame(f, g, keys[1..]);
    }
  }

  // ---------------------------------------------------------------- section toggles

  /** `{...prev, [s]: !prev[s]}`: a missing flag reads as false. */
  function ToggleSection(sections: map<string, bool>, s: string): (r: map<string, bool>)
    ensures s in r && r[s] == !(s in sections && sections[s])
    ensures r.Keys == sections.Keys + {s}
    ensures forall t :: t in sections && t != s ==> r[t] == sections[t]
  {
    sections[s := !(s in sections && sections[s])]
  }

  /** Toggling a section that exists twice restores the original flags. */
  lemma ToggleSectionTwice(sections: map<string, bool>, s: string)
    requires s in sections
    ensures ToggleSection(ToggleSection(sections, s), s) == sections
  {
    var r := ToggleSection(ToggleSection(sections, s), s);
    assert r.Keys == sections.Keys;
    assert forall t :: t in r ==> r[t] == sections[t];
  }

  // ---------------------------------------------------------------- panel edits

  /** The edit a filter panel makes to its local copy of the filters: a ticked or unticked
      checkbox adds `value` to, or removes it from, the list under `category` (a falsy entry
      first becomes `[]`); no checkbox (`checked === null`) overwrites the entry. */
  function PanelChange(f: Filters, category: string, value: string, checked: Option<bool>): (r: Outcome<Filters>)
    ensures r.Done? ==> r.value.Keys == f.Keys + {category}
    ensures r.Done? ==> forall k :: k in f && k != category ==> r.value[k] == f[k]
    ensures checked == None ==> r == Done(f[category := Single(value)])
    ensures checked == Some(true) ==>
      r.Done? && r.value[category].Multi? && r.value[category].items == Spread(ValueOr(f, category)) + [value]
    ensures checked == Some(false) ==> (r.Thrown? <==> Set(f, category) && f[category].Single?)
    ensures checked == Some(false) && r.Done? ==>
      && r.value[category].Multi?
      && value !in r.value[category].items
      && forall i :: 0 <= i < |ValueOr(f, category).items| && ValueOr(f, category).items[i] != value ==>
           ValueOr(f, category).items[i] in r.value[category].items
  {
    match checked
    case None => Done(f[category := Single(value)])
    case Some(on) =>
      var current := ValueOr(f, category);
      if on then Done(f[category := Multi(Spread(current) + [value])])
      else
        match Without(current, value)
        case Done(rest) => Done(f[category := rest])
        case Thrown => Thrown
  }

  /** The state updater shared by both filter panels, step by step on a copy of the
      filters: a missing or falsy list entry starts as `[]`, then the value is appended
      (ticked) or filtered out (unticked); a select overwrites the entry. */
  method EditFilters(f: Filters, category: string, value: string, checked: Option<bool>) returns (r: Outcome<Filters>)
    ensures r == PanelChange(f, category, value, checked)
  {
    var newFilters := f;
    if checked.Some? {
      if !Set(newFilters, category) {
        newFilters := newFilters[category := Multi([])];
      }
      assert newFilters[category] == ValueOr(f, category);
      ghost var base := newFilters;
      if checked.value {
        newFilters := newFilters[category := Multi(Spread(newFilters[category]) + [value])];
        assert newFilters == f[category := newFilters[category]] by {
          assert newFilters == base[category := newFilters[category]];
        }
      } else {
        var rest := Without(newFilters[category], value);
        if rest.Thrown? {
          return Thrown;
        }
        newFilters := newFilters[category := rest.value];
        assert newFilters == f[category := rest.value] by {
          assert newFilters == base[category := rest.value];
        }
      }
    } else {
      newFilters := newFilters[category := Single(value)];
    }
    r := Done(newFilters);
  }

  /** Ticking a box appends even a value that is already selected. */
  lemma PanelCheckDuplicates(f: Filters, category: string, value: string)
    requires category in f && f[category].Multi? && value in f[category].items
    ensures var r := PanelChange(f, category, value, Some(true));
      r.Done? && |r.value[category].items| == |f[category].items| + 1
  {
  }

  /** Ticking a box on a list entry appends the value to that list. */
  lemma PanelCheckList(f: Filters, category: string, value: string)
    requires category in f && f[category].Multi?
    ensures PanelChange(f, category, value, Some(true)) == Done(f[category := Multi(f[category].items + [value])])
  {
    assert Spread(ValueOr(f, category)) == f[category].items;
  }

  /** Unticking a box on a list entry removes every copy of the value from that list. */
  lemma PanelUncheckList(f: Filters, category: string, value: string)
    requires category in f && f[category].Multi?
    ensures PanelChange(f, category, value, Some(false)) == Done(f[category := Multi(RemoveAll(f[category].items, value))])
  {
    assert ValueOr(f, category) == f[category];
  }

  /** Unticking a box that was just ticked restores the list, when the value was not
      selected before and the entry was a list. */
  lemma PanelCheckUncheck(f: Filters, category: string, value: string)
    requires category in f && f[category].Multi? && value !in f[category].items
    ensures var g := PanelChange(f, category, value, Some(true)).value;
      PanelChange(g, category, value, Some(false)) == Done(f)
  {
    var xs := f[category].items;
    var g := f[category := Multi(xs + [value])];
    PanelCheckList(f, category, value);
    assert PanelChange(f, category, value, Some(true)).value == g;
    PanelUncheckList(g, category, value);
    RemoveAllLast(xs, value);
    assert PanelChange(g, category, value, Some(false)) == Done(g[category := f[category]]);
    UpdateBack(f, category, Multi(xs + [value]));
  }

  /** Writing an entry back over an update restores the object. */
  lemma UpdateBack(f: Filters, c: string, v: FilterValue)
    requires c in f
    ensures f[c := v][c := f[c]] == f
  {
  }

  /** Unticking the only value selected, however often it was ticked, keeps the key,
      holding an empty list. */
  lemma PanelUncheckKeepsKey(f: Filters, category: string, value: string)
    requires category in f && f[category].Multi?
    requires forall i :: 0 <= i < |f[category].items| ==> f[category].items[i] == value
    ensures PanelChange(f, category, value, Some(false)) == Done(f[category := Multi([])])
  {
    FilterNone(f[category].items, Other(value));
  }
}
