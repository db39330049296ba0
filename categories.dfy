/** Per-category totals. The dashboard accumulates them in a plain object
    (script.js:309-313) and the analytics service in a dict
    (main.py:146-149); both keep their keys in first-insertion order, so
    both are modelled as an association list whose entries appear in the
    order their category was first met. The same module holds the
    descending sort by amount that both use for display and ranking. */
module Categories {

  /** One key/value pair: a raw category string and an amount. */
  datatype CategoryTotal = CategoryTotal(category: string, amount: real)

  /** The categories of a list, in list order. */
  function Keys(m: seq<CategoryTotal>): (ks: seq<string>)
    ensures |ks| == |m|
    ensures forall i :: 0 <= i < |m| ==> ks[i] == m[i].category
  {
    if m == [] then [] else [m[0].category] + Keys(m[1..])
  }

  predicate Distinct(s: seq<string>) {
    forall i, j :: 0 <= i < j < |s| ==> s[i] != s[j]
  }

  /** Sum of all amounts in a list. */
  function Total(m: seq<CategoryTotal>): real {
    if m == [] then 0.0 else m[0].amount + Total(m[1..])
  }

  /** The amount stored under `c`, or 0 when `c` is not a key
      (`totals[c] || 0`, `breakdown.get(c, 0)`). */
  function AmountOf(m: seq<CategoryTotal>, c: string): (a: real)
    ensures c !in Keys(m) ==> a == 0.0
  {
    if m == [] then 0.0
    else if m[0].category == c then m[0].amount
    else AmountOf(m[1..], c)
  }

  /** `totals[c] = (totals[c] || 0) + a`: adds `a` to the entry for `c`, or
      appends a new entry for `c` at the end when there is none. */
  function Upsert(m: seq<CategoryTotal>, c: string, a: real): (r: seq<CategoryTotal>)
    ensures Keys(r) == if c in Keys(m) then Keys(m) else Keys(m) + [c]
  {
    if m == [] then [CategoryTotal(c, a)]
    else if m[0].category == c then [CategoryTotal(c, m[0].amount + a)] + m[1..]
    else [m[0]] + Upsert(m[1..], c, a)
  }

  /** Adding to `c` changes the amount under `c` and no other. */
  lemma {:induction false} UpsertAmount(m: seq<CategoryTotal>, c: string, a: real, k: string)
    ensures AmountOf(Upsert(m, c, a), k) == AmountOf(m, k) + (if k == c then a else 0.0)
  {
    if m != [] && m[0].category != c {
      UpsertAmount(m[1..], c, a, k);
    }
  }

  /** Adding to one entry raises the overall sum by the amount added. */
  lemma {:induction false} UpsertTotal(m: seq<CategoryTotal>, c: string, a: real)
    ensures Total(Upsert(m, c, a)) == Total(m) + a
  {
    if m != [] && m[0].category != c {
      UpsertTotal(m[1..], c, a);
    }
  }

  /** Groups a list of (category, amount) items by category, visiting the
      items in order, as the accumulation loops do. */
  function Group(items: seq<CategoryTotal>): seq<CategoryTotal> {
    if items == [] then []
    else
      var last := items[|items| - 1];
      Upsert(Group(items[..|items| - 1]), last.category, last.amount)
  }

  /** Reference definition of a category's total: the sum of the amounts of
      the items carrying exactly that category string. */
  function CategorySum(items: seq<CategoryTotal>, c: string): real {
    if items == [] then 0.0
    else (if items[0].category == c then items[0].amount else 0.0) + CategorySum(items[1..], c)
  }

  /** Index of the first occurrence of `x` in `s`. */
  function FirstIndex(s: seq<string>, x: string): (i: nat)
    requires x in s
    ensures i < |s| && s[i] == x && x !in s[..i]
  {
    if s[0] == x then 0 else 1 + FirstIndex(s[1..], x)
  }

  lemma {:induction false} TotalAppend(m: seq<CategoryTotal>, x: CategoryTotal)
    ensures Total(m + [x]) == Total(m) + x.amount
  {
    if m != [] {
      assert (m + [x])[1..] == m[1..] + [x];
      TotalAppend(m[1..], x);
    }
  }

  lemma {:induction false} CategorySumAppend(m: seq<CategoryTotal>, x: CategoryTotal, c: string)
    ensures CategorySum(m + [x], c) == CategorySum(m, c) + (if x.category == c then x.amount else 0.0)
  {
    if m != [] {
      assert (m + [x])[1..] == m[1..] + [x];
      CategorySumAppend(m[1..], x, c);
    }
  }

  /** A non-empty sequence is its prefix followed by its last element. */
  lemma {:induction false} SplitLast<T>(s: seq<T>)
    requires s != []
    ensures s == s[..|s| - 1] + [s[|s| - 1]]
  {
  }

  /** The keys of a non-empty list: those of all but the last item, then the last one's. */
  lemma {:induction false} KeysLast(items: seq<CategoryTotal>)
    requires items != []
    ensures Keys(items) == Keys(items[..|items| - 1]) + [items[|items| - 1].category]
  {
    var n := |items| - 1;
    var ks := Keys(items[..n]) + [items[n].category];
    assert |Keys(items)| == |ks|;
    forall i | 0 <= i < |ks| ensures Keys(items)[i] == ks[i] {
      if i < n {
        assert items[..n][i] == items[i];
      }
    }
  }

  lemma {:induction false} FirstIndexExtend(s: seq<string>, y: string, x: string)
    requires x in s
    ensures FirstIndex(s + [y], x) == FirstIndex(s, x)
  {
    if s[0] != x {
      assert (s + [y])[1..] == s[1..] + [y];
      FirstIndexExtend(s[1..], y, x);
    }
  }

  /** The keys of the grouping are the distinct categories of the items,
      with no key twice and none missing. */
  lemma {:induction false} GroupKeys(items: seq<CategoryTotal>)
    ensures Distinct(Keys(Group(items)))
    ensures forall c :: c in Keys(Group(items)) <==> c in Keys(items)
  {
    if items != [] {
      var n := |items| - 1;
      var g, c := Group(items[..n]), items[n].category;
      GroupKeys(items[..n]);
      KeysLast(items);
      assert Group(items) == Upsert(g, c, items[n].amount);
      if c !in Keys(g) {
        DistinctSnoc(Keys(g), c);
      }
    }
  }

  lemma {:induction false} DistinctSnoc(s: seq<string>, c: string)
    requires Distinct(s) && c !in s
    ensures Distinct(s + [c])
  {
    forall i, j | 0 <= i < j < |s + [c]| ensures (s + [c])[i] != (s + [c])[j] {
      assert (s + [c])[i] == s[i];
    }
  }

  /** Every key of `ks` occurs in `s`, and the keys are listed in the order
      of their first occurrence in `s`. */
  predicate InFirstEncounterOrder(ks: seq<string>, s: seq<string>) {
    (forall k :: k in ks ==> k in s) &&
    forall i, j :: 0 <= i < j < |ks| ==> FirstIndex(s, ks[i]) < FirstIndex(s, ks[j])
  }

  lemma {:induction false} OrderExtend(ks: seq<string>, s: seq<string>, c: string, ks': seq<string>)
    requires InFirstEncounterOrder(ks, s)
    requires forall k :: k in s ==> k in ks
    requires ks' == if c in ks then ks else ks + [c]
    ensures InFirstEncounterOrder(ks', s + [c])
  {
    var t := s + [c];
    forall k | k in ks
      ensures k in t && FirstIndex(t, k) == FirstIndex(s, k) < |s|
    {
      FirstIndexExtend(s, c, k);
    }
    if c !in ks {
      FirstIndexNew(s, c);
      forall i, j | 0 <= i < j < |ks'| ensures FirstIndex(t, ks'[i]) < FirstIndex(t, ks'[j]) {
        assert ks'[i] == ks[i] && ks[i] in ks;
        if j < |ks| {
          assert ks'[j] == ks[j] && ks[j] in ks;
        }
      }
    } else {
      forall i, j | 0 <= i < j < |ks'| ensures FirstIndex(t, ks'[i]) < FirstIndex(t, ks'[j]) {
        assert ks[i] in ks && ks[j] in ks;
      }
    }
  }

  lemma {:induction false} FirstIndexNew(s: seq<string>, c: string)
    requires c !in s
    ensures FirstIndex(s + [c], c) == |s|
  {
    if s != [] {
      assert (s + [c])[1..] == s[1..] + [c];
      FirstIndexNew(s[1..], c);
    } else {
      assert s + [c] == [c];
    }
  }

  /** Keys appear in the order their category was first met in the items. */
  lemma {:induction false} GroupFirstEncounterOrder(items: seq<CategoryTotal>)
    ensures InFirstEncounterOrder(Keys(Group(items)), Keys(items))
  {
    if items != [] {
      var n := |items| - 1;
      var prev, c := Group(items[..n]), items[n].category;
      GroupFirstEncounterOrder(items[..n]);
      GroupKeys(items[..n]);
      KeysLast(items);
      OrderExtend(Keys(prev), Keys(items[..n]), c, Keys(Group(items)));
    }
  }

  /** Each key carries the sum of the amounts of its items. */
  lemma {:induction false} GroupAmounts(items: seq<CategoryTotal>, c: string)
    ensures AmountOf(Group(items), c) == CategorySum(items, c)
  {
    if items != [] {
      var n := |items| - 1;
      GroupAmounts(items[..n], c);
      UpsertAmount(Group(items[..n]), items[n].category, items[n].amount, c);
      SplitLast(items);
      CategorySumAppend(items[..n], items[n], c);
    }
  }

  /** The per-category totals add up to the sum of all items. */
  lemma {:induction false} GroupTotal(items: seq<CategoryTotal>)
    ensures Total(Group(items)) == Total(items)
  {
    if items != [] {
      var n := |items| - 1;
      GroupTotal(items[..n]);
      UpsertTotal(Group(items[..n]), items[n].category, items[n].amount);
      SplitLast(items);
      TotalAppend(items[..n], items[n]);
    }
  }

  /** A category not yet present gets a new entry at the end. */
  lemma {:induction false} UpsertFresh(m: seq<CategoryTotal>, c: string, a: real)
    requires c !in Keys(m)
    ensures Upsert(m, c, a) == m + [CategoryTotal(c, a)]
  {
    if m != [] {
      assert Keys(m)[0] == m[0].category;
      forall i | 0 <= i < |m| - 1 ensures Keys(m[1..])[i] == Keys(m)[i + 1] {
      }
      UpsertFresh(m[1..], c, a);
      assert [m[0]] + (m[1..] + [CategoryTotal(c, a)]) == m + [CategoryTotal(c, a)];
    }
  }

  /** When no category repeats, grouping changes nothing: the totals are
      the items themselves, in their order. */
  lemma {:induction false} GroupDistinct(items: seq<CategoryTotal>)
    requires Distinct(Keys(items))
    ensures Group(items) == items
  {
    if items != [] {
      var n := |items| - 1;
      KeysLast(items);
      var ks := Keys(items[..n]);
      assert forall i :: 0 <= i < |ks| ==> ks[i] == Keys(items)[i];
      assert items[n].category !in ks by {
        assert Keys(items)[n] == items[n].category;
      }
      GroupDistinct(items[..n]);
      UpsertFresh(items[..n], items[n].category, items[n].amount);
      SplitLast(items);
    }
  }

  /** Distinct keys: the entry at `k` is the one `AmountOf` finds. */
  lemma {:induction false} AmountOfEntry(m: seq<CategoryTotal>, k: nat)
    requires Distinct(Keys(m)) && k < |m|
    ensures AmountOf(m, m[k].category) == m[k].amount
  {
    if k > 0 {
      assert Keys(m)[0] != Keys(m)[k];
      assert Distinct(Keys(m[1..])) by {
        forall i, j | 0 <= i < j < |m[1..]| ensures Keys(m[1..])[i] != Keys(m[1..])[j] {
          assert Keys(m)[i + 1] != Keys(m)[j + 1];
        }
      }
      AmountOfEntry(m[1..], k - 1);
    }
  }

  /** Sorted by amount, largest first. */
  predicate SortedDesc(m: seq<CategoryTotal>) {
    forall i, j :: 0 <= i < j < |m| ==> m[i].amount >= m[j].amount
  }

  /** Inserts `x` into a list sorted largest first, after every entry that
      is at least as large, so equal amounts keep their earlier order. */
  function Insert(sorted: seq<CategoryTotal>, x: CategoryTotal): (r: seq<CategoryTotal>)
    requires SortedDesc(sorted)
    ensures |r| == |sorted| + 1
    ensures multiset(r) == multiset(sorted) + multiset{x}
    ensures SortedDesc(r)
  {
    if sorted == [] then [x]
    else if sorted[0].amount >= x.amount then
      SortedTail(sorted);
      var rest := Insert(sorted[1..], x);
      PrependSorted(sorted[0], sorted[1..], x, rest);
      [sorted[0]] + rest
    else
      PrependLarger(x, sorted);
      [x] + sorted
  }

  lemma {:induction false} SortedTail(m: seq<CategoryTotal>)
    requires SortedDesc(m) && m != []
    ensures SortedDesc(m[1..]) && m == [m[0]] + m[1..]
  {
    forall i, j | 0 <= i < j < |m| - 1 ensures m[1..][i].amount >= m[1..][j].amount {
      assert m[1..][i] == m[i + 1] && m[1..][j] == m[j + 1];
    }
  }

  /** An entry at least as large as the head of a sorted list can go first. */
  lemma {:induction false} PrependLarger(x: CategoryTotal, m: seq<CategoryTotal>)
    requires SortedDesc(m) && m != [] && x.amount >= m[0].amount
    ensures SortedDesc([x] + m)
  {
    forall i, j | 0 <= i < j < |m| + 1 ensures ([x] + m)[i].amount >= ([x] + m)[j].amount {
      if i > 0 {
        assert ([x] + m)[i] == m[i - 1];
      }
      assert ([x] + m)[j] == m[j - 1];
    }
  }

  /** A head at least as large as everything in a sorted tail keeps the
      list sorted. */
  lemma {:induction false} PrependSorted(h: CategoryTotal, tail: seq<CategoryTotal>, x: CategoryTotal, rest: seq<CategoryTotal>)
    requires SortedDesc([h] + tail) && h.amount >= x.amount
    requires SortedDesc(rest) && multiset(rest) == multiset(tail) + multiset{x}
    ensures SortedDesc([h] + rest)
  {
    forall k | 0 <= k < |rest| ensures h.amount >= rest[k].amount {
      assert rest[k] in multiset(rest);
      if rest[k] != x {
        assert rest[k] in multiset(tail);
        var j :| 0 <= j < |tail| && tail[j] == rest[k];
        assert ([h] + tail)[0] == h && ([h] + tail)[j + 1] == tail[j];
      }
    }
  }

  /** The stable descending sort by amount (`sort((a, b) => b[1] - a[1])`,
      `sorted(..., key=amount, reverse=True)`). */
  function SortDesc(m: seq<CategoryTotal>): (r: seq<CategoryTotal>)
    ensures |r| == |m|
    ensures SortedDesc(r)
    ensures multiset(r) == multiset(m)
  {
    if m == [] then []
    else
      SplitLast(m);
      Insert(SortDesc(m[..|m| - 1]), m[|m| - 1])
  }

  /** The entries carrying amount `a`, in their order in `s`. */
  function WithAmount(s: seq<CategoryTotal>, a: real): seq<CategoryTotal> {
    if s == [] then [] else (if s[0].amount == a then [s[0]] else []) + WithAmount(s[1..], a)
  }

  lemma {:induction false} WithAmountAppend(s: seq<CategoryTotal>, t: seq<CategoryTotal>, a: real)
    ensures WithAmount(s + t, a) == WithAmount(s, a) + WithAmount(t, a)
  {
    if s == [] {
      assert s + t == t;
    } else {
      var h := if s[0].amount == a then [s[0]] else [];
      var u, v := WithAmount(s[1..], a), WithAmount(t, a);
      assert (s + t)[0] == s[0] && (s + t)[1..] == s[1..] + t;
      assert WithAmount(s + t, a) == h + WithAmount(s[1..] + t, a);
      WithAmountAppend(s[1..], t, a);
      assert WithAmount(s, a) == h + u;
      assert h + (u + v) == (h + u) + v;
    }
  }

  lemma {:induction false} WithAmountNone(s: seq<CategoryTotal>, a: real)
    requires forall i :: 0 <= i < |s| ==> s[i].amount != a
    ensures WithAmount(s, a) == []
  {
    if s != [] {
      assert forall i :: 0 <= i < |s| - 1 ==> s[1..][i] == s[i + 1];
      WithAmountNone(s[1..], a);
    }
  }

  lemma {:induction false} WithAmountCons(h: CategoryTotal, s: seq<CategoryTotal>, a: real)
    ensures WithAmount([h] + s, a) == (if h.amount == a then [h] else []) + WithAmount(s, a)
  {
    assert ([h] + s)[0] == h && ([h] + s)[1..] == s;
  }

  /** Putting the same entry in front of two lists keeps a relation between
      their entries of one amount. */
  lemma {:induction false} ConsStable(h: CategoryTotal, s: seq<CategoryTotal>, t: seq<CategoryTotal>,
                                      e: seq<CategoryTotal>, a: real)
    requires WithAmount(s, a) == WithAmount(t, a) + e
    ensures WithAmount([h] + s, a) == WithAmount([h] + t, a) + e
  {
    var p := if h.amount == a then [h] else [];
    WithAmountCons(h, s, a);
    WithAmountCons(h, t, a);
    assert p + (WithAmount(t, a) + e) == (p + WithAmount(t, a)) + e;
  }

  /** Insertion is stable: among entries of equal amount, the inserted one
      comes after those already in the list. */
  lemma {:induction false} InsertStable(sorted: seq<CategoryTotal>, x: CategoryTotal, a: real)
    requires SortedDesc(sorted)
    ensures WithAmount(Insert(sorted, x), a) == WithAmount(sorted, a) + (if x.amount == a then [x] else [])
  {
    var e := if x.amount == a then [x] else [];
    if sorted == [] {
      WithAmountCons(x, [], a);
      assert [x] + [] == [x];
    } else if sorted[0].amount >= x.amount {
      SortedTail(sorted);
      var rest := Insert(sorted[1..], x);
      InsertStable(sorted[1..], x, a);
      assert Insert(sorted, x) == [sorted[0]] + rest;
      ConsStable(sorted[0], rest, sorted[1..], e, a);
      assert [sorted[0]] + sorted[1..] == sorted;
    } else {
      assert Insert(sorted, x) == [x] + sorted;
      PrependStable(sorted, x, a);
    }
  }

  /** An entry larger than every entry of a descending list is the only one
      of its amount once prepended. */
  lemma {:induction false} PrependStable(sorted: seq<CategoryTotal>, x: CategoryTotal, a: real)
    requires SortedDesc(sorted) && sorted != [] && sorted[0].amount < x.amount
    ensures WithAmount([x] + sorted, a) == WithAmount(sorted, a) + (if x.amount == a then [x] else [])
  {
    WithAmountCons(x, sorted, a);
    if x.amount == a {
      forall i | 0 <= i < |sorted| ensures sorted[i].amount != a {
        if i > 0 {
          assert sorted[0].amount >= sorted[i].amount;
        }
      }
      WithAmountNone(sorted, a);
    }
  }

  /** The sort is stable: for every amount, the entries carrying it appear
      in the sorted list in the order they had in the input. */
  lemma {:induction false} SortStable(m: seq<CategoryTotal>, a: real)
    ensures WithAmount(SortDesc(m), a) == WithAmount(m, a)
  {
    if m != [] {
      var n := |m| - 1;
      var init, x := m[..n], m[n];
      var h := if x.amount == a then [x] else [];
      assert SortDesc(m) == Insert(SortDesc(init), x);
      SortStable(init, a);
      InsertStable(SortDesc(init), x, a);
      assert WithAmount(SortDesc(m), a) == WithAmount(init, a) + h;
      SplitLast(m);
      WithAmountAppend(init, [x], a);
      assert [x][1..] == [];
      assert WithAmount([x], a) == h;
    }
  }

  /** The largest amount (`Math.max(...Object.values(totals))`). */
  function MaxAmount(m: seq<CategoryTotal>): (x: real)
    requires m != []
    ensures forall i :: 0 <= i < |m| ==> m[i].amount <= x
    ensures exists i :: 0 <= i < |m| && m[i].amount == x
  {
    if |m| == 1 then m[0].amount
    else
      var rest := MaxAmount(m[1..]);
      assert forall i :: 1 <= i < |m| ==> m[i] == m[1..][i - 1];
      if m[0].amount >= rest then m[0].amount else rest
  }

  /** The first entry of the sorted list carries the largest amount. */
  lemma {:induction false} SortedHeadIsMax(m: seq<CategoryTotal>)
    requires m != []
    ensures |SortDesc(m)| == |m|
    ensures SortDesc(m)[0].amount == MaxAmount(m)
  {
    var r := SortDesc(m);
    assert |r| == |multiset(r)| == |multiset(m)| == |m|;
    var i :| 0 <= i < |m| && m[i].amount == MaxAmount(m);
    assert m[i] in multiset(r);
    var k :| 0 <= k < |r| && r[k] == m[i];
    assert r[0] in multiset(m);
    var j :| 0 <= j < |m| && m[j] == r[0];
  }

  /** The first `n` entries of the sorted list (`sorted(...)[:n]`). */
  function Top(m: seq<CategoryTotal>, n: nat): seq<CategoryTotal> {
    var s := SortDesc(m);
    if |s| <= n then s else s[..n]
  }

  /** Ties are kept in input order: for every amount, the ranked entries
      carrying it are the first of the list's entries carrying it. */
  lemma {:induction false} TopStable(m: seq<CategoryTotal>, n: nat)
    ensures forall a :: WithAmount(Top(m, n), a) <= WithAmount(m, a)
  {
    var s := SortDesc(m);
    forall a ensures WithAmount(Top(m, n), a) <= WithAmount(m, a) {
      SortStable(m, a);
      if |s| > n {
        WithAmountPrefix(s, n, a);
      }
    }
  }

  lemma {:induction false} WithAmountPrefix(s: seq<CategoryTotal>, k: nat, a: real)
    requires k <= |s|
    ensures WithAmount(s[..k], a) <= WithAmount(s, a)
  {
    assert s == s[..k] + s[k..];
    WithAmountAppend(s[..k], s[k..], a);
  }

  /** The ranking holds at most `n` entries of the list, largest first, and
      nothing left out is larger than anything kept. */
  lemma {:induction false} TopIsTop(m: seq<CategoryTotal>, n: nat)
    ensures |Top(m, n)| <= n && |Top(m, n)| <= |m|
    ensures |Top(m, n)| == if |m| <= n then |m| else n
    ensures SortedDesc(Top(m, n))
    ensures forall x :: x in Top(m, n) ==> x in m
    ensures forall x, y :: x in m && x !in Top(m, n) && y in Top(m, n) ==> x.amount <= y.amount
  {
    var s := SortDesc(m);
    assert |s| == |multiset(s)| == |multiset(m)| == |m|;
    var t := Top(m, n);
    forall x | x in t ensures x in m {
      assert x in multiset(s);
    }
    forall x, y | x in m && x !in t && y in t ensures x.amount <= y.amount {
      assert x in multiset(s);
      var k :| 0 <= k < |s| && s[k] == x;
      var l :| 0 <= l < |t| && t[l] == y;
      assert s[l] == y;
    }
  }
}
