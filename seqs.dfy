/**
 * The list operations the application builds its pipelines from: `Array.prototype.filter`,
 * summing `reduce`s, the stable `Array.prototype.sort`, and grouping by a string key into an
 * object whose entries come out in first-insertion order (JavaScript orders keys that look
 * like array indices first; the keys grouped here are store names and category ids, which
 * never do).
 */
module Seqs {

  // ---------------------------------------------------------------- filter

  /** `s.filter(p)`. */
  function Filter<T>(s: seq<T>, p: T -> bool): (r: seq<T>)
    ensures |r| <= |s|
    ensures forall i :: 0 <= i < |r| ==> r[i] in s && p(r[i])
    ensures forall i :: 0 <= i < |s| && p(s[i]) ==> s[i] in r
  {
    if s == [] then [] else (if p(s[0]) then [s[0]] else []) + Filter(s[1..], p)
  }

  lemma {:induction false} FilterAppend<T>(a: seq<T>, b: seq<T>, p: T -> bool)
    ensures Filter(a + b, p) == Filter(a, p) + Filter(b, p)
  {
    if a != [] {
      assert (a + b)[1..] == a[1..] + b;
      FilterAppend(a[1..], b, p);
      assert Filter(a + b, p) == (if p(a[0]) then [a[0]] else []) + Filter(a[1..] + b, p);
    } else {
      assert a + b == b;
    }
  }

  /** Filtering keeps everything exactly when every element passes. */
  lemma {:induction false} FilterAll<T>(s: seq<T>, p: T -> bool)
    ensures Filter(s, p) == s <==> forall i :: 0 <= i < |s| ==> p(s[i])
  {
    if s != [] {
      FilterAll(s[1..], p);
      if !p(s[0]) {
        assert |Filter(s, p)| < |s|;
      } else {
        assert s == [s[0]] + s[1..];
      }
    }
  }

  /** Filtering keeps nothing when no element passes. */
  lemma {:induction false} FilterNone<T>(s: seq<T>, p: T -> bool)
    requires forall i :: 0 <= i < |s| ==> !p(s[i])
    ensures Filter(s, p) == []
  {
    if s != [] {
      FilterNone(s[1..], p);
    }
  }

  /** Two tests that agree on the elements of `s` keep the same elements. */
  lemma {:induction false} FilterExt<T>(s: seq<T>, p: T -> bool, q: T -> bool)
    requires forall i :: 0 <= i < |s| ==> p(s[i]) == q(s[i])
    ensures Filter(s, p) == Filter(s, q)
  {
    if s != [] {
      FilterExt(s[1..], p, q);
    }
  }

  /** Two successive filters are one filter by the conjunction of their tests. */
  lemma {:induction false} FilterConj<T>(s: seq<T>, p: T -> bool, q: T -> bool, r: T -> bool)
    requires forall i :: 0 <= i < |s| ==> r(s[i]) == (p(s[i]) && q(s[i]))
    ensures Filter(Filter(s, p), q) == Filter(s, r)
  {
    if s != [] {
      FilterConj(s[1..], p, q, r);
      if p(s[0]) {
        assert Filter(s, p) == [s[0]] + Filter(s[1..], p);
        assert ([s[0]] + Filter(s[1..], p))[1..] == Filter(s[1..], p);
        assert Filter(Filter(s, p), q) == (if q(s[0]) then [s[0]] else []) + Filter(Filter(s[1..], p), q);
      } else {
        assert Filter(s, p) == Filter(s[1..], p);
      }
      assert Filter(s, r) == (if r(s[0]) then [s[0]] else []) + Filter(s[1..], r);
    }
  }

  /** Elements of `s` whose key is `k`, in order. */
  function Having<T, K(==)>(s: seq<T>, key: T -> K, k: K): seq<T>
  {
    if s == [] then [] else (if key(s[0]) == k then [s[0]] else []) + Having(s[1..], key, k)
  }

  lemma {:induction false} HavingAppend<T, K>(a: seq<T>, b: seq<T>, key: T -> K, k: K)
    ensures Having(a + b, key, k) == Having(a, key, k) + Having(b, key, k)
  {
    if a != [] {
      assert (a + b)[1..] == a[1..] + b;
      HavingAppend(a[1..], b, key, k);
      assert Having(a + b, key, k) == (if key(a[0]) == k then [a[0]] else []) + Having(a[1..] + b, key, k);
    } else {
      assert a + b == b;
    }
  }

  /** The elements kept under `k` are the elements of `s` whose key is `k`. */
  lemma {:induction false} HavingIn<T, K>(s: seq<T>, key: T -> K, k: K, x: T)
    ensures x in Having(s, key, k) <==> x in s && key(x) == k
  {
    if s != [] {
      HavingIn(s[1..], key, k, x);
      assert s == [s[0]] + s[1..];
    }
  }

  /** Filtering by a test and by its negation splits `s` into two parts that together hold
      every element exactly as often as `s` does. */
  lemma {:induction false} FilterSplit<T>(s: seq<T>, p: T -> bool, q: T -> bool)
    requires forall i :: 0 <= i < |s| ==> (q(s[i]) <==> !p(s[i]))
    ensures multiset(Filter(s, p)) + multiset(Filter(s, q)) == multiset(s)
    ensures |Filter(s, p)| + |Filter(s, q)| == |s|
  {
    if s != [] {
      FilterSplit(s[1..], p, q);
      assert s == [s[0]] + s[1..];
    }
  }

  /** `s.slice(lo, hi)` for non-negative bounds: both are clamped to the length. */
  function Slice<T>(s: seq<T>, lo: nat, hi: nat): (r: seq<T>)
    ensures |r| <= |s| && (lo <= hi <= |s| ==> r == s[lo..hi])
    ensures hi <= lo ==> r == []
  {
    var a := if lo < |s| then lo else |s|;
    var b := if hi < |s| then hi else |s|;
    if a < b then s[a..b] else []
  }

  // ---------------------------------------------------------------- sums

  /** `s.reduce((sum, x) => sum + f(x), 0)`. */
  function Sum<T>(s: seq<T>, f: T -> real): real {
    if s == [] then 0.0 else f(s[0]) + Sum(s[1..], f)
  }

  lemma {:induction false} SumAppend<T>(a: seq<T>, b: seq<T>, f: T -> real)
    ensures Sum(a + b, f) == Sum(a, f) + Sum(b, f)
  {
    if a != [] {
      assert (a + b)[1..] == a[1..] + b;
      SumAppend(a[1..], b, f);
      assert Sum(a + b, f) == f(a[0]) + Sum(a[1..] + b, f);
    } else {
      assert a + b == b;
    }
  }

  /** Summing two functions pointwise is summing their sum: the shape of `original − cost`. */
  lemma {:induction false} SumDifference<T>(s: seq<T>, f: T -> real, g: T -> real, h: T -> real)
    requires forall i :: 0 <= i < |s| ==> h(s[i]) == f(s[i]) - g(s[i])
    ensures Sum(s, h) == Sum(s, f) - Sum(s, g)
  {
    if s != [] {
      SumDifference(s[1..], f, g, h);
    }
  }

  // ---------------------------------------------------------------- stable sort

  /** `s` is in ascending order of `key`. */
  predicate SortedBy<T>(s: seq<T>, key: T -> real) {
    forall i, j :: 0 <= i < j < |s| ==> key(s[i]) <= key(s[j])
  }

  /** Places `x` in front of the first element whose key is not smaller than its own. */
  function InsertBy<T>(x: T, s: seq<T>, key: T -> real): (r: seq<T>)
    ensures |r| == |s| + 1
    ensures multiset(r) == multiset(s) + multiset{x}
  {
    if s == [] || key(x) <= key(s[0]) then [x] + s
    else
      assert s == [s[0]] + s[1..];
      [s[0]] + InsertBy(x, s[1..], key)
  }

  /** The stable sort `s.sort((a, b) => key(a) - key(b))`: elements of equal key keep their
      relative order. A descending sort is the ascending sort by the negated key. */
  function SortBy<T>(s: seq<T>, key: T -> real): (r: seq<T>)
    ensures |r| == |s|
    ensures multiset(r) == multiset(s)
  {
    if s == [] then []
    else
      assert s == [s[0]] + s[1..];
      InsertBy(s[0], SortBy(s[1..], key), key)
  }

  lemma {:induction false} InsertBySorted<T>(x: T, s: seq<T>, key: T -> real)
    requires SortedBy(s, key)
    ensures SortedBy(InsertBy(x, s, key), key)
    ensures InsertBy(x, s, key) != [] && (s == [] || InsertBy(x, s, key)[0] == x || InsertBy(x, s, key)[0] == s[0])
  {
    if s != [] && key(x) > key(s[0]) {
      InsertBySorted(x, s[1..], key);
    }
  }

  lemma {:induction false} InsertByHaving<T>(x: T, s: seq<T>, key: T -> real, k: real)
    requires SortedBy(s, key)
    ensures Having(InsertBy(x, s, key), key, k) == (if key(x) == k then [x] else []) + Having(s, key, k)
  {
    if s == [] || key(x) <= key(s[0]) {
      assert ([x] + s)[1..] == s;
    } else {
      var t := InsertBy(x, s[1..], key);
      InsertByHaving(x, s[1..], key, k);
      assert InsertBy(x, s, key) == [s[0]] + t;
      var h0: seq<T> := if key(s[0]) == k then [s[0]] else [];
      var hx: seq<T> := if key(x) == k then [x] else [];
      assert ([s[0]] + t)[1..] == t;
      assert Having([s[0]] + t, key, k) == h0 + Having(t, key, k);
      assert Having(s, key, k) == h0 + Having(s[1..], key, k);
      assert h0 == [] || hx == [];
    }
  }

  /** The sort orders by key, is a permutation, and keeps the relative order of every group
      of equal keys. */
  lemma {:induction false} SortBySpec<T>(s: seq<T>, key: T -> real)
    ensures SortedBy(SortBy(s, key), key)
    ensures multiset(SortBy(s, key)) == multiset(s)
    ensures forall k :: Having(SortBy(s, key), key, k) == Having(s, key, k)
  {
    if s != [] {
      SortBySpec(s[1..], key);
      InsertBySorted(s[0], SortBy(s[1..], key), key);
      forall k ensures Having(SortBy(s, key), key, k) == Having(s, key, k) {
        InsertByHaving(s[0], SortBy(s[1..], key), key, k);
      }
    }
  }

  /** No two elements of `s` share an identifier. */
  predicate DistinctBy<T>(s: seq<T>, id: T -> string) {
    forall i, j :: 0 <= i < j < |s| ==> id(s[i]) != id(s[j])
  }

  lemma {:induction false} InsertByDistinct<T>(x: T, s: seq<T>, key: T -> real, id: T -> string)
    requires DistinctBy(s, id)
    requires forall i :: 0 <= i < |s| ==> id(s[i]) != id(x)
    ensures DistinctBy(InsertBy(x, s, key), id)
  {
    if s != [] && key(x) > key(s[0]) {
      var t := InsertBy(x, s[1..], key);
      InsertByDistinct(x, s[1..], key, id);
      assert InsertBy(x, s, key) == [s[0]] + t;
      forall i | 0 <= i < |t| ensures id(t[i]) != id(s[0]) {
        assert t[i] in multiset(s[1..]) + multiset{x};
        if t[i] in multiset(s[1..]) {
          var m :| 0 <= m < |s[1..]| && s[1..][m] == t[i];
          assert s[1 + m] == t[i];
        }
      }
    } else {
      assert InsertBy(x, s, key) == [x] + s;
    }
  }

  /** Sorting keeps identifiers distinct. */
  lemma {:induction false} SortByDistinct<T>(s: seq<T>, key: T -> real, id: T -> string)
    requires DistinctBy(s, id)
    ensures DistinctBy(SortBy(s, key), id)
  {
    if s != [] {
      var t := SortBy(s[1..], key);
      SortByDistinct(s[1..], key, id);
      forall i | 0 <= i < |t| ensures id(t[i]) != id(s[0]) {
        assert t[i] in multiset(s[1..]);
        var m :| 0 <= m < |s[1..]| && s[1..][m] == t[i];
        assert s[1 + m] == t[i];
      }
      InsertByDistinct(s[0], t, key, id);
    }
  }

  /** A comparator that never separates two elements leaves the order untouched. */
  lemma {:induction false} SortByConstant<T>(s: seq<T>, key: T -> real)
    requires forall i, j :: 0 <= i < |s| && 0 <= j < |s| ==> key(s[i]) == key(s[j])
    ensures SortBy(s, key) == s
  {
    if s != [] {
      SortByConstant(s[1..], key);
      assert s == [s[0]] + s[1..];
    }
  }

  // ---------------------------------------------------------------- grouping

  /** One entry of an object built by grouping: the key and the elements pushed under it. */
  datatype Group<T> = Group(key: string, items: seq<T>)

  function Keys<T>(gs: seq<Group<T>>): (ks: seq<string>)
    ensures |ks| == |gs| && forall i :: 0 <= i < |gs| ==> ks[i] == gs[i].key
  {
    if gs == [] then [] else [gs[0].key] + Keys(gs[1..])
  }

  predicate Distinct(ks: seq<string>) {
    forall i, j :: 0 <= i < j < |ks| ==> ks[i] != ks[j]
  }

  /** The index of the group stored under `k`, or `|gs|` when there is none. */
  function FindKey<T>(gs: seq<Group<T>>, k: string): (i: nat)
    ensures i <= |gs|
    ensures i < |gs| ==> gs[i].key == k
    ensures forall j :: 0 <= j < i ==> gs[j].key != k
  {
    if gs == [] then 0 else if gs[0].key == k then 0 else 1 + FindKey(gs[1..], k)
  }

  /** One step of the grouping `reduce`: push `x` onto the entry for its key, creating the
      entry at the end when the key is new. */
  function AddTo<T>(gs: seq<Group<T>>, x: T, key: T -> string): (r: seq<Group<T>>)
  {
    var i := FindKey(gs, key(x));
    if i == |gs| then gs + [Group(key(x), [x])]
    else gs[i := Group(key(x), gs[i].items + [x])]
  }

  /** The entries of the grouping object after all of `items` have been pushed. */
  function GroupsOf<T>(items: seq<T>, key: T -> string): seq<Group<T>> {
    if items == [] then []
    else AddTo(GroupsOf(items[..|items| - 1], key), items[|items| - 1], key)
  }

  /** The index of the first element whose key is `k`, or `|items|` when there is none. */
  function FirstIndex<T>(items: seq<T>, key: T -> string, k: string): (i: nat)
    ensures i <= |items|
    ensures i < |items| ==> key(items[i]) == k
    ensures forall j :: 0 <= j < i ==> key(items[j]) != k
  {
    if items == [] then 0 else if key(items[0]) == k then 0 else 1 + FirstIndex(items[1..], key, k)
  }

  lemma FirstIndexPrefix<T>(items: seq<T>, n: nat, key: T -> string, k: string)
    requires n <= |items|
    requires FirstIndex(items[..n], key, k) < n
    ensures FirstIndex(items, key, k) == FirstIndex(items[..n], key, k)
  {
    var i := FirstIndex(items[..n], key, k);
    assert items[i] == items[..n][i];
    forall m | 0 <= m < i ensures key(items[m]) != k {
      assert items[m] == items[..n][m];
    }
  }

  /** Every entry is non-empty and holds exactly the elements of `items` with its key. */
  ghost predicate HoldsHaving<T>(gs: seq<Group<T>>, items: seq<T>, key: T -> string) {
    forall j :: 0 <= j < |gs| ==> gs[j].items != [] && gs[j].items == Having(items, key, gs[j].key)
  }

  /** Every element's key has an entry. */
  ghost predicate Covers<T>(gs: seq<Group<T>>, items: seq<T>, key: T -> string) {
    forall i :: 0 <= i < |items| ==> key(items[i]) in Keys(gs)
  }

  /** Every key occurs in `items`, and the entries are in order of their keys' first occurrence. */
  ghost predicate FirstSeenOrder<T>(gs: seq<Group<T>>, items: seq<T>, key: T -> string) {
    && (forall j :: 0 <= j < |gs| ==> FirstIndex(items, key, gs[j].key) < |items|)
    && (forall j, l :: 0 <= j < l < |gs| ==> FirstIndex(items, key, gs[j].key) < FirstIndex(items, key, gs[l].key))
  }

  /** A key with no entry gets a new one at the end. */
  lemma AddToNew<T>(gs: seq<Group<T>>, x: T, key: T -> string)
    requires key(x) !in Keys(gs)
    ensures var r := AddTo(gs, x, key);
      && r == gs + [Group(key(x), [x])]
      && Keys(r) == Keys(gs) + [key(x)]
  {
    var r := gs + [Group(key(x), [x])];
    assert Keys(r) == Keys(gs) + [key(x)] by {
      assert forall j :: 0 <= j < |gs| ==> r[j] == gs[j];
    }
  }

  /** A key with an entry has `x` pushed onto that entry only. */
  lemma AddToOld<T>(gs: seq<Group<T>>, x: T, key: T -> string)
    requires Distinct(Keys(gs)) && key(x) in Keys(gs)
    ensures var r := AddTo(gs, x, key);
      && |r| == |gs| && Keys(r) == Keys(gs)
      && forall j :: 0 <= j < |gs| ==>
           r[j].key == gs[j].key && r[j].items == gs[j].items + (if gs[j].key == key(x) then [x] else [])
  {
    var i := FindKey(gs, key(x));
    var r := AddTo(gs, x, key);
    assert Keys(r) == Keys(gs) by {
      assert forall j :: 0 <= j < |gs| ==> Keys(r)[j] == Keys(gs)[j];
    }
    forall j | 0 <= j < |gs| && j != i ensures gs[j].key != key(x) {
      assert Keys(gs)[j] == gs[j].key && Keys(gs)[i] == gs[i].key;
    }
  }

  /** What one step of the grouping does to the keys and to the entries. */
  lemma AddToShape<T>(gs: seq<Group<T>>, x: T, key: T -> string)
    requires Distinct(Keys(gs))
    ensures var r := AddTo(gs, x, key);
      && (key(x) in Keys(gs) ==> |r| == |gs|)
      && (key(x) !in Keys(gs) ==> |r| == |gs| + 1 && r[|gs|] == Group(key(x), [x]))
      && (key(x) in Keys(gs) ==> Keys(r) == Keys(gs))
      && (key(x) !in Keys(gs) ==> Keys(r) == Keys(gs) + [key(x)])
      && forall j :: 0 <= j < |gs| ==>
           r[j].key == gs[j].key && r[j].items == gs[j].items + (if gs[j].key == key(x) then [x] else [])
  {
    if key(x) in Keys(gs) {
      AddToOld(gs, x, key);
    } else {
      AddToNew(gs, x, key);
      forall j | 0 <= j < |gs| ensures gs[j].key != key(x) {
        assert Keys(gs)[j] == gs[j].key;
      }
    }
  }

  lemma {:induction false} GroupsOfDistinct<T>(items: seq<T>, key: T -> string)
    ensures Distinct(Keys(GroupsOf(items, key)))
  {
    if items != [] {
      var n := |items| - 1;
      var gs := GroupsOf(items[..n], key);
      GroupsOfDistinct(items[..n], key);
      AddToShape(gs, items[n], key);
      var r := GroupsOf(items, key);
      assert r == AddTo(gs, items[n], key);
    }
  }

  /** One step of the grouping keeps every entry equal to the elements having its key. */
  lemma AddToHaving<T>(gs: seq<Group<T>>, pre: seq<T>, x: T, key: T -> string)
    requires Distinct(Keys(gs))
    requires HoldsHaving(gs, pre, key) && Covers(gs, pre, key)
    ensures HoldsHaving(AddTo(gs, x, key), pre + [x], key)
  {
    var r := AddTo(gs, x, key);
    AddToShape(gs, x, key);
    assert [x][1..] == [];
    forall j | 0 <= j < |r| ensures r[j].items != [] && r[j].items == Having(pre + [x], key, r[j].key) {
      var k := r[j].key;
      HavingAppend(pre, [x], key, k);
      assert Having([x], key, k) == if key(x) == k then [x] else [];
      if j == |gs| {
        HavingMember(pre, key, key(x));
      }
    }
  }

  lemma {:induction false} GroupsOfHaving<T>(items: seq<T>, key: T -> string)
    ensures HoldsHaving(GroupsOf(items, key), items, key)
  {
    if items != [] {
      var n := |items| - 1;
      var gs := GroupsOf(items[..n], key);
      assert GroupsOf(items, key) == AddTo(gs, items[n], key);
      GroupsOfHaving(items[..n], key);
      GroupsOfDistinct(items[..n], key);
      GroupsOfKeys(items[..n], key);
      AddToHaving(gs, items[..n], items[n], key);
      assert items == items[..n] + [items[n]];
    }
  }

  /** No element of `s` has key `k` exactly when none is kept under `k`. */
  lemma {:induction false} HavingMember<T>(s: seq<T>, key: T -> string, k: string)
    requires forall i :: 0 <= i < |s| ==> key(s[i]) != k
    ensures Having(s, key, k) == []
  {
    if s != [] {
      HavingMember(s[1..], key, k);
    }
  }

  /** One step of the grouping keeps every element's key among the entries' keys. */
  lemma AddToCovers<T>(gs: seq<Group<T>>, pre: seq<T>, x: T, key: T -> string)
    requires Distinct(Keys(gs)) && Covers(gs, pre, key)
    ensures Covers(AddTo(gs, x, key), pre + [x], key)
  {
    var r := AddTo(gs, x, key);
    var items := pre + [x];
    assert key(x) in Keys(r) && forall k :: k in Keys(gs) ==> k in Keys(r) by {
      if key(x) in Keys(gs) {
        AddToOld(gs, x, key);
      } else {
        AddToNew(gs, x, key);
      }
    }
    forall i | 0 <= i < |items| ensures key(items[i]) in Keys(r) {
      if i < |pre| {
        assert items[i] == pre[i];
      }
    }
  }

  lemma {:induction false} GroupsOfKeys<T>(items: seq<T>, key: T -> string)
    ensures Covers(GroupsOf(items, key), items, key)
  {
    if items != [] {
      var n := |items| - 1;
      var pre := items[..n];
      GroupsOfKeys(pre, key);
      GroupsOfDistinct(pre, key);
      AddToCovers(GroupsOf(pre, key), pre, items[n], key);
      assert pre + [items[n]] == items;
    }
  }

  /** Extending the input keeps the first occurrence of every key already met. */
  lemma FirstIndexExtend<T>(gs: seq<Group<T>>, pre: seq<T>, x: T, key: T -> string)
    requires forall j :: 0 <= j < |gs| ==> FirstIndex(pre, key, gs[j].key) < |pre|
    ensures forall j :: 0 <= j < |gs| ==> FirstIndex(pre + [x], key, gs[j].key) == FirstIndex(pre, key, gs[j].key)
  {
    var items := pre + [x];
    assert items[..|pre|] == pre;
    forall j | 0 <= j < |gs| ensures FirstIndex(items, key, gs[j].key) == FirstIndex(pre, key, gs[j].key) {
      FirstIndexPrefix(items, |pre|, key, gs[j].key);
    }
  }

  /** A key met for the first time at the end occurs first there. */
  lemma FirstIndexNew<T>(gs: seq<Group<T>>, pre: seq<T>, x: T, key: T -> string)
    requires Covers(gs, pre, key) && key(x) !in Keys(gs)
    ensures FirstIndex(pre + [x], key, key(x)) == |pre|
  {
    var items := pre + [x];
    forall m | 0 <= m < |pre| ensures key(items[m]) != key(x) {
      assert items[m] == pre[m];
      assert key(pre[m]) in Keys(gs);
    }
    assert items[|pre|] == x;
  }

  /** Entries with the same keys, met first at the same places of a longer input, stay in
      first-seen order. */
  lemma FirstSeenSameKeys<T>(gs: seq<Group<T>>, r: seq<Group<T>>, pre: seq<T>, items: seq<T>, key: T -> string)
    requires |pre| <= |items| && |r| == |gs|
    requires forall j :: 0 <= j < |gs| ==> r[j].key == gs[j].key
    requires forall j :: 0 <= j < |gs| ==> FirstIndex(items, key, gs[j].key) == FirstIndex(pre, key, gs[j].key)
    requires FirstSeenOrder(gs, pre, key)
    ensures FirstSeenOrder(r, items, key)
  {
  }

  /** An entry appended for a key first met at the end of the input keeps first-seen order. */
  lemma FirstSeenAppended<T>(gs: seq<Group<T>>, g: Group<T>, pre: seq<T>, items: seq<T>, key: T -> string)
    requires |items| == |pre| + 1
    requires forall j :: 0 <= j < |gs| ==> FirstIndex(items, key, gs[j].key) == FirstIndex(pre, key, gs[j].key)
    requires FirstIndex(items, key, g.key) == |pre|
    requires FirstSeenOrder(gs, pre, key)
    ensures FirstSeenOrder(gs + [g], items, key)
  {
    var r := gs + [g];
    assert forall j :: 0 <= j < |gs| ==> r[j] == gs[j];
  }

  /** One step of the grouping keeps the entries in order of first occurrence. */
  lemma AddToFirstSeen<T>(gs: seq<Group<T>>, pre: seq<T>, x: T, key: T -> string)
    requires Distinct(Keys(gs)) && Covers(gs, pre, key) && FirstSeenOrder(gs, pre, key)
    ensures FirstSeenOrder(AddTo(gs, x, key), pre + [x], key)
  {
    FirstIndexExtend(gs, pre, x, key);
    if key(x) in Keys(gs) {
      AddToOld(gs, x, key);
      FirstSeenSameKeys(gs, AddTo(gs, x, key), pre, pre + [x], key);
    } else {
      AddToNew(gs, x, key);
      FirstIndexNew(gs, pre, x, key);
      FirstSeenAppended(gs, Group(key(x), [x]), pre, pre + [x], key);
    }
  }

  lemma {:induction false} GroupsOfFirstSeen<T>(items: seq<T>, key: T -> string)
    ensures FirstSeenOrder(GroupsOf(items, key), items, key)
  {
    if items != [] {
      var n := |items| - 1;
      var pre := items[..n];
      GroupsOfFirstSeen(pre, key);
      GroupsOfDistinct(pre, key);
      GroupsOfKeys(pre, key);
      AddToFirstSeen(GroupsOf(pre, key), pre, items[n], key);
      assert pre + [items[n]] == items;
    }
  }

  /** Grouping partitions the input: the keys are distinct and appear in the order in which
      each key is first met, every group is non-empty and holds exactly the elements with its
      key, in their original order, and every element's key has a group. */
  lemma GroupsOfSpec<T>(items: seq<T>, key: T -> string)
    ensures Distinct(Keys(GroupsOf(items, key)))
    ensures HoldsHaving(GroupsOf(items, key), items, key)
    ensures Covers(GroupsOf(items, key), items, key)
    ensures FirstSeenOrder(GroupsOf(items, key), items, key)
  {
    GroupsOfDistinct(items, key);
    GroupsOfHaving(items, key);
    GroupsOfKeys(items, key);
    GroupsOfFirstSeen(items, key);
  }

  /** The total of `f` over every group's elements equals its total over the input. */
  function GroupsSum<T>(gs: seq<Group<T>>, f: T -> real): real {
    if gs == [] then 0.0 else Sum(gs[0].items, f) + GroupsSum(gs[1..], f)
  }

  lemma {:induction false} GroupsSumAppend<T>(a: seq<Group<T>>, b: seq<Group<T>>, f: T -> real)
    ensures GroupsSum(a + b, f) == GroupsSum(a, f) + GroupsSum(b, f)
  {
    if a != [] {
      assert (a + b)[1..] == a[1..] + b;
      GroupsSumAppend(a[1..], b, f);
      assert GroupsSum(a + b, f) == Sum(a[0].items, f) + GroupsSum(a[1..] + b, f);
    } else {
      assert a + b == b;
    }
  }

  lemma {:induction false} AddToSum<T>(gs: seq<Group<T>>, x: T, key: T -> string, f: T -> real)
    ensures GroupsSum(AddTo(gs, x, key), f) == GroupsSum(gs, f) + f(x)
    decreases |gs|
  {
    var i := FindKey(gs, key(x));
    if i == |gs| {
      var g := Group(key(x), [x]);
      GroupsSumAppend(gs, [g], f);
      assert [g][1..] == [];
      assert GroupsSum([g], f) == Sum(g.items, f);
      assert g.items[1..] == [];
      assert Sum(g.items, f) == f(x);
    } else if i == 0 {
      SumAppend(gs[0].items, [x], f);
      assert AddTo(gs, x, key)[1..] == gs[1..];
    } else {
      assert FindKey(gs[1..], key(x)) == i - 1;
      AddToSum(gs[1..], x, key, f);
      assert AddTo(gs, x, key) == [gs[0]] + AddTo(gs[1..], x, key);
    }
  }

  lemma {:induction false} GroupsOfSum<T>(items: seq<T>, key: T -> string, f: T -> real)
    ensures GroupsSum(GroupsOf(items, key), f) == Sum(items, f)
  {
    if items != [] {
      var n := |items| - 1;
      GroupsOfSum(items[..n], key, f);
      AddToSum(GroupsOf(items[..n], key), items[n], key, f);
      assert items == items[..n] + [items[n]];
      SumAppend(items[..n], [items[n]], f);
    }
  }

  /** The grouping `reduce`, one element at a time. */
  method GroupBy<T>(items: seq<T>, key: T -> string) returns (groups: seq<Group<T>>)
    ensures groups == GroupsOf(items, key)
  {
    groups := [];
    var i := 0;
    while i < |items|
      invariant 0 <= i <= |items|
      invariant groups == GroupsOf(items[..i], key)
    {
      assert items[..i + 1][..i] == items[..i];
      groups := AddTo(groups, items[i], key);
      i := i + 1;
    }
    assert items[..i] == items;
  }
}
