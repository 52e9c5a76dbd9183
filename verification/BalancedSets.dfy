/** The values behind Karmarkar-Karp differencing: item sets, their order, sorted tuples of
    sets, and what merging two tuples does to sums, items and sizes. */
module BalancedSets {
  import opened IntSeqs
  import opened Sorting

  datatype Item = Item(idx: nat, val: int)

  datatype SetV = SetV(sum: int, items: seq<Item>)

  function Vals(items: seq<Item>): (vs: seq<int>)
    ensures |vs| == |items|
  {
    seq(|items|, i requires 0 <= i < |items| => items[i].val)
  }

  predicate Wf(s: SetV) {
    && s.sum == Sum(Vals(s.items))
    && forall i :: 0 <= i < |s.items| ==> s.items[i].val >= 0
  }

  // --------------------------------------------------------------------------
  // The order on sets: sum, then number of items, then the items themselves
  // --------------------------------------------------------------------------

  predicate ItemLess(a: Item, b: Item) {
    a.idx < b.idx || (a.idx == b.idx && a.val < b.val)
  }

  /** Lexicographic order on item lists. */
  predicate ItemsLess(a: seq<Item>, b: seq<Item>) {
    if b == [] then false
    else if a == [] then true
    else if a[0] != b[0] then ItemLess(a[0], b[0])
    else ItemsLess(a[1..], b[1..])
  }

  predicate SetLess(a: SetV, b: SetV) {
    if a.sum != b.sum then a.sum < b.sum
    else if |a.items| != |b.items| then |a.items| < |b.items|
    else ItemsLess(a.items, b.items)
  }

  predicate Geq(a: SetV, b: SetV) {
    !SetLess(a, b)
  }

  lemma {:induction false} ItemsLessTotal(a: seq<Item>, b: seq<Item>)
    ensures ItemsLess(a, b) ==> !ItemsLess(b, a)
    ensures !ItemsLess(a, b) && !ItemsLess(b, a) ==> a == b
  {
    if a != [] && b != [] && a[0] == b[0] {
      ItemsLessTotal(a[1..], b[1..]);
      assert a == [a[0]] + a[1..] && b == [b[0]] + b[1..];
    }
  }

  lemma {:induction false} ItemsLessTransitive(a: seq<Item>, b: seq<Item>, c: seq<Item>)
    requires !ItemsLess(a, b) && !ItemsLess(b, c)
    ensures !ItemsLess(a, c)
  {
    if a != [] && b != [] && c != [] && a[0] == b[0] == c[0] {
      ItemsLessTransitive(a[1..], b[1..], c[1..]);
    }
  }

  lemma SetLessTotal(a: SetV, b: SetV)
    ensures Geq(a, b) || Geq(b, a)
    ensures Geq(a, b) && Geq(b, a) ==> a == b
  {
    ItemsLessTotal(a.items, b.items);
  }

  lemma GeqTransitive(a: SetV, b: SetV, c: SetV)
    requires Geq(a, b) && Geq(b, c)
    ensures Geq(a, c)
  {
    if a.sum == b.sum == c.sum && |a.items| == |b.items| == |c.items| {
      ItemsLessTransitive(a.items, b.items, c.items);
    }
  }

  ghost predicate Descending(s: seq<SetV>) {
    forall i, j :: 0 <= i < j < |s| ==> Geq(s[i], s[j])
  }

  // --------------------------------------------------------------------------
  // Sorting
  // --------------------------------------------------------------------------

  function SortDesc(s: seq<SetV>): seq<SetV> {
    Sort(Geq, s)
  }

  lemma GeqIsOrder()
    ensures WeakOrder(Geq)
  {
    forall a, b
      ensures Geq(a, b) || Geq(b, a)
    {
      SetLessTotal(a, b);
    }
    forall a, b, c | Geq(a, b) && Geq(b, c)
      ensures Geq(a, c)
    {
      GeqTransitive(a, b, c);
    }
  }

  lemma SortDescSorts(s: seq<SetV>)
    ensures Descending(SortDesc(s))
    ensures multiset(SortDesc(s)) == multiset(s)
    ensures |SortDesc(s)| == |s|
  {
    var r := SortDesc(s);
    GeqIsOrder();
    SortPermutes(Geq, s);
    SortSorts(Geq, s);
    assert InOrder(Geq, r);
  }

  // --------------------------------------------------------------------------
  // Tuples of sets
  // --------------------------------------------------------------------------

  /** A tuple as a partial partition keeps it: k sets, largest first. */
  ghost predicate TupleOk(s: seq<SetV>, k: nat) {
    |s| == k >= 1 && Descending(s) && forall i :: 0 <= i < k ==> Wf(s[i])
  }

  function Spread(s: seq<SetV>): int
    requires s != []
  {
    s[0].sum - s[|s| - 1].sum
  }

  function MergeSet(a: SetV, b: SetV): SetV {
    SetV(a.sum + Sum(Vals(b.items)), a.items + b.items)
  }

  /** The largest set of one tuple joined with the smallest of the other, and so on. */
  function Pair(a: seq<SetV>, b: seq<SetV>): (c: seq<SetV>)
    requires |a| == |b|
    ensures |c| == |a|
  {
    seq(|a|, i requires 0 <= i < |a| => MergeSet(a[i], b[|a| - 1 - i]))
  }

  function MergeTuples(a: seq<SetV>, b: seq<SetV>): seq<SetV>
    requires |a| == |b|
  {
    SortDesc(Pair(a, b))
  }

  lemma MergeSetWf(a: SetV, b: SetV)
    requires Wf(a) && Wf(b)
    ensures Wf(MergeSet(a, b)) && MergeSet(a, b).sum == a.sum + b.sum
  {
    assert Vals(a.items + b.items) == Vals(a.items) + Vals(b.items);
    SumConcat(Vals(a.items), Vals(b.items));
  }

  lemma SortedTupleOk(c: seq<SetV>, k: nat)
    requires |c| == k >= 1 && forall i :: 0 <= i < k ==> Wf(c[i])
    ensures TupleOk(SortDesc(c), k)
  {
    SortDescSorts(c);
    forall i | 0 <= i < k
      ensures Wf(SortDesc(c)[i])
    {
      assert SortDesc(c)[i] in multiset(SortDesc(c));
      assert SortDesc(c)[i] in c;
    }
  }

  lemma PairWf(a: seq<SetV>, b: seq<SetV>, k: nat)
    requires TupleOk(a, k) && TupleOk(b, k)
    ensures forall i :: 0 <= i < k ==> Wf(Pair(a, b)[i]) && Pair(a, b)[i].sum == a[i].sum + b[k - 1 - i].sum
  {
    forall i | 0 <= i < k
      ensures Wf(Pair(a, b)[i]) && Pair(a, b)[i].sum == a[i].sum + b[k - 1 - i].sum
    {
      MergeSetWf(a[i], b[k - 1 - i]);
    }
  }

  lemma MergeOk(a: seq<SetV>, b: seq<SetV>, k: nat)
    requires TupleOk(a, k) && TupleOk(b, k)
    ensures TupleOk(MergeTuples(a, b), k)
  {
    PairWf(a, b, k);
    SortedTupleOk(Pair(a, b), k);
  }

  lemma DescendingSums(s: seq<SetV>, k: nat, i: nat, j: nat)
    requires TupleOk(s, k) && i <= j < k
    ensures s[i].sum >= s[j].sum
  {
    assert i < j ==> Geq(s[i], s[j]);
  }

  /** The sums of any two sets of a tuple differ by at most its spread. */
  lemma WithinSpread(s: seq<SetV>, k: nat, i: nat, j: nat)
    requires TupleOk(s, k) && i < k && j < k
    ensures s[i].sum - s[j].sum <= Spread(s)
  {
    DescendingSums(s, k, 0, i);
    DescendingSums(s, k, j, k - 1);
  }

  /** Opposite orders cancel: no two sets of the merged tuple differ by more than the wider spread. */
  lemma PairWithin(a: seq<SetV>, b: seq<SetV>, k: nat, w: int, i: nat, j: nat)
    requires TupleOk(a, k) && TupleOk(b, k) && Spread(a) <= w && Spread(b) <= w && i < k && j < k
    ensures (a[i].sum + b[k - 1 - i].sum) - (a[j].sum + b[k - 1 - j].sum) <= w
  {
    if i <= j {
      WithinSpread(a, k, i, j);
      DescendingSums(b, k, k - 1 - j, k - 1 - i);
    } else {
      DescendingSums(a, k, j, i);
      WithinSpread(b, k, k - 1 - i, k - 1 - j);
    }
  }

  lemma SortedSpread(c: seq<SetV>, k: nat, w: int)
    requires |c| == k >= 1
    requires forall i, j :: 0 <= i < k && 0 <= j < k ==> c[i].sum - c[j].sum <= w
    ensures |SortDesc(c)| == k && Spread(SortDesc(c)) <= w
  {
    SortDescSorts(c);
    var m := SortDesc(c);
    assert m[0] in multiset(m) && m[k - 1] in multiset(m);
    assert m[0] in c && m[k - 1] in c;
  }

  /** A merged tuple spreads no wider than the wider of the two. */
  lemma MergeSpread(a: seq<SetV>, b: seq<SetV>, k: nat, w: int)
    requires TupleOk(a, k) && TupleOk(b, k) && Spread(a) <= w && Spread(b) <= w
    ensures |MergeTuples(a, b)| == k && Spread(MergeTuples(a, b)) <= w
  {
    var c := Pair(a, b);
    PairWf(a, b, k);
    forall i: nat, j: nat | i < k && j < k
      ensures c[i].sum - c[j].sum <= w
    {
      PairWithin(a, b, k, w, i, j);
      assert c[i].sum == a[i].sum + b[k - 1 - i].sum;
      assert c[j].sum == a[j].sum + b[k - 1 - j].sum;
    }
    SortedSpread(c, k, w);
  }

  // --------------------------------------------------------------------------
  // Nothing is lost or duplicated
  // --------------------------------------------------------------------------

  function Bag(s: seq<SetV>): multiset<Item> {
    if s == [] then multiset{} else multiset(s[0].items) + Bag(s[1..])
  }

  lemma {:induction false} InBag(s: seq<SetV>, i: nat, x: Item)
    requires i < |s| && x in s[i].items
    ensures x in Bag(s)
  {
    if i > 0 {
      InBag(s[1..], i - 1, x);
    }
  }

  lemma BagsReassociate(x: multiset<Item>, y: multiset<Item>, z: multiset<Item>)
    ensures x + (y + z) == (x + y) + z
  {
  }

  lemma BagsCross(p: multiset<Item>, q: multiset<Item>, x: multiset<Item>, y: multiset<Item>)
    ensures (p + q) + (x + y) == (p + x) + (y + q)
  {
  }

  lemma {:induction false} BagConcat(s: seq<SetV>, t: seq<SetV>)
    ensures Bag(s + t) == Bag(s) + Bag(t)
  {
    if s == [] {
      assert s + t == t;
    } else {
      var u, x := s + t, multiset(s[0].items);
      assert u[0] == s[0] && u[1..] == s[1..] + t;
      calc {
        Bag(u);
        x + Bag(s[1..] + t);
        { BagConcat(s[1..], t); }
        x + (Bag(s[1..]) + Bag(t));
        { BagsReassociate(x, Bag(s[1..]), Bag(t)); }
        (x + Bag(s[1..])) + Bag(t);
        Bag(s) + Bag(t);
      }
    }
  }

  lemma BagOfOne(x: SetV, one: seq<SetV>)
    requires |one| == 1 && one[0] == x
    ensures Bag(one) == multiset(x.items)
  {
    var none := one[1..];
    assert Bag(none) == multiset{};
  }

  lemma BagOfLast(s: seq<SetV>)
    requires s != []
    ensures Bag(s) == Bag(s[..|s| - 1]) + multiset(s[|s| - 1].items)
  {
    var init, one := s[..|s| - 1], s[|s| - 1..];
    assert s == init + one;
    BagConcat(init, one);
    BagOfOne(s[|s| - 1], one);
  }

  lemma {:induction false} InsertBag(x: SetV, s: seq<SetV>)
    ensures Bag(Insert(Geq, x, s)) == multiset(x.items) + Bag(s)
  {
    if s == [] || Geq(x, s[0]) {
      assert ([x] + s)[1..] == s;
    } else {
      InsertBag(x, s[1..]);
      assert ([s[0]] + Insert(Geq, x, s[1..]))[1..] == Insert(Geq, x, s[1..]);
    }
  }

  lemma {:induction false} SortDescBag(s: seq<SetV>)
    ensures Bag(SortDesc(s)) == Bag(s)
  {
    if s != [] {
      SortDescBag(s[1..]);
      InsertBag(s[0], SortDesc(s[1..]));
    }
  }

  lemma {:induction false} PairBag(a: seq<SetV>, b: seq<SetV>)
    requires |a| == |b|
    ensures Bag(Pair(a, b)) == Bag(a) + Bag(b)
  {
    if a != [] {
      var init, last := b[..|b| - 1], b[|b| - 1];
      var p, q, x, y := multiset(a[0].items), multiset(last.items), Bag(a[1..]), Bag(init);
      assert Pair(a, b)[1..] == Pair(a[1..], init);
      calc {
        Bag(Pair(a, b));
        multiset(a[0].items + last.items) + Bag(Pair(a[1..], init));
        (p + q) + Bag(Pair(a[1..], init));
        { PairBag(a[1..], init); }
        (p + q) + (x + y);
        { BagsCross(p, q, x, y); }
        (p + x) + (y + q);
        { BagOfLast(b); }
        Bag(a) + Bag(b);
      }
    }
  }

  lemma MergeBag(a: seq<SetV>, b: seq<SetV>)
    requires |a| == |b|
    ensures Bag(MergeTuples(a, b)) == Bag(a) + Bag(b)
  {
    PairBag(a, b);
    SortDescBag(Pair(a, b));
  }

  // --------------------------------------------------------------------------
  // Non-empty sets and equal sizes
  // --------------------------------------------------------------------------

  function Filled(s: seq<SetV>): nat {
    if s == [] then 0 else (if s[0].items != [] then 1 else 0) + Filled(s[1..])
  }

  lemma {:induction false} FilledConcat(s: seq<SetV>, t: seq<SetV>)
    ensures Filled(s + t) == Filled(s) + Filled(t)
  {
    if s == [] {
      assert s + t == t;
    } else {
      FilledConcat(s[1..], t);
      assert (s + t)[1..] == s[1..] + t;
    }
  }

  lemma {:induction false} InsertFilled(x: SetV, s: seq<SetV>)
    ensures Filled(Insert(Geq, x, s)) == Filled(s) + if x.items != [] then 1 else 0
  {
    if s == [] || Geq(x, s[0]) {
      assert ([x] + s)[1..] == s;
    } else {
      InsertFilled(x, s[1..]);
      assert ([s[0]] + Insert(Geq, x, s[1..]))[1..] == Insert(Geq, x, s[1..]);
    }
  }

  lemma {:induction false} SortDescFilled(s: seq<SetV>)
    ensures Filled(SortDesc(s)) == Filled(s)
  {
    if s != [] {
      SortDescFilled(s[1..]);
      InsertFilled(s[0], SortDesc(s[1..]));
    }
  }

  lemma {:induction false} AllFilled(s: seq<SetV>)
    ensures Filled(s) <= |s|
    ensures Filled(s) == |s| <==> forall i :: 0 <= i < |s| ==> s[i].items != []
  {
    if s != [] {
      AllFilled(s[1..]);
      assert s == [s[0]] + s[1..];
      assert (forall i :: 0 <= i < |s| ==> s[i].items != []) <==>
             s[0].items != [] && forall i :: 0 <= i < |s[1..]| ==> s[1..][i].items != [];
    }
  }

  /** Ties on the sum are broken by size, so empty sets come last even among zero-valued items. */
  lemma EmptyLast(s: seq<SetV>, k: nat, i: nat, j: nat)
    requires TupleOk(s, k) && i < j < k && s[i].items == []
    ensures s[j].items == []
  {
    assert Geq(s[i], s[j]);
    SumNonNegative(Vals(s[j].items));
  }

  lemma {:induction false} FilledPrefix(s: seq<SetV>, k: nat)
    requires TupleOk(s, k)
    ensures Filled(s) <= k
    ensures forall i :: 0 <= i < k ==> (s[i].items != [] <==> i < Filled(s))
  {
    AllFilled(s);
    if s[k - 1].items != [] {
      forall i | 0 <= i < k
        ensures s[i].items != []
      {
        if s[i].items == [] && i < k - 1 {
          EmptyLast(s, k, i, k - 1);
        }
      }
    } else if k > 1 {
      var init := s[..k - 1];
      assert TupleOk(init, k - 1) by {
        assert forall i, j :: 0 <= i < j < k - 1 ==> Geq(s[i], s[j]);
      }
      FilledPrefix(init, k - 1);
      assert s == init + [s[k - 1]];
      FilledConcat(init, [s[k - 1]]);
      assert Filled([s[k - 1]]) == 0;
      assert forall i :: 0 <= i < k - 1 ==> s[i] == init[i];
    }
  }

  lemma {:induction false} FilledAll(s: seq<SetV>, filled: bool)
    requires forall i :: 0 <= i < |s| ==> (s[i].items != [] <==> filled)
    ensures Filled(s) == if filled then |s| else 0
  {
    if s != [] {
      FilledAll(s[1..], filled);
    }
  }

  lemma {:induction false} FilledEnds(c: seq<SetV>, p: nat, q: nat)
    requires p + q <= |c|
    requires forall i :: 0 <= i < |c| ==> (c[i].items != [] <==> i < p || |c| - 1 - i < q)
    ensures Filled(c) == p + q
  {
    if c != [] {
      var rest := c[1..];
      assert forall i :: 0 <= i < |rest| ==> rest[i] == c[i + 1];
      FilledEnds(rest, if p > 0 then p - 1 else 0, if p == 0 && q == |c| then q - 1 else q);
    }
  }

  /** Position i of the pairing is empty just when both sets it joins are. */
  lemma PairItems(a: seq<SetV>, b: seq<SetV>, k: nat, i: nat)
    requires |a| == |b| == k && i < k
    ensures Pair(a, b)[i].items != [] <==> a[i].items != [] || b[k - 1 - i].items != []
  {
  }

  /** Merging fills as many sets as it can: p and q non-empty sets make min(k, p + q). */
  lemma MergeFilled(a: seq<SetV>, b: seq<SetV>, k: nat)
    requires TupleOk(a, k) && TupleOk(b, k)
    ensures var p, q := Filled(a), Filled(b);
            Filled(MergeTuples(a, b)) == if p + q <= k then p + q else k
  {
    var p, q, c := Filled(a), Filled(b), Pair(a, b);
    FilledPrefix(a, k);
    FilledPrefix(b, k);
    SortDescFilled(c);
    forall i: nat | i < k
      ensures c[i].items != [] <==> i < p || k - 1 - i < q
    {
      PairItems(a, b, k, i);
    }
    if p + q <= k {
      FilledEnds(c, p, q);
    } else {
      FilledAll(c, true);
    }
  }

  ghost predicate AllSize(s: seq<SetV>, m: nat) {
    forall i :: 0 <= i < |s| ==> |s[i].items| == m
  }

  lemma SortDescAllSize(s: seq<SetV>, m: nat)
    requires AllSize(s, m)
    ensures AllSize(SortDesc(s), m)
  {
    SortDescSorts(s);
    forall i | 0 <= i < |s|
      ensures |SortDesc(s)[i].items| == m
    {
      assert SortDesc(s)[i] in multiset(SortDesc(s));
      assert SortDesc(s)[i] in s;
    }
  }

  lemma MergeAllSize(a: seq<SetV>, b: seq<SetV>, m: nat, n: nat)
    requires |a| == |b| && AllSize(a, m) && AllSize(b, n)
    ensures AllSize(MergeTuples(a, b), m + n)
  {
    SortDescAllSize(Pair(a, b), m + n);
  }

  lemma BagsAdd(x: multiset<Item>, y: multiset<Item>)
    ensures |x + y| == |x| + |y|
  {
  }

  lemma {:induction false} BagSize(s: seq<SetV>, m: nat)
    requires AllSize(s, m)
    ensures |Bag(s)| == |s| * m
  {
    if s != [] {
      BagSize(s[1..], m);
      BagsAdd(multiset(s[0].items), Bag(s[1..]));
      ProductStep(|s|, m);
      assert |multiset(s[0].items)| == m;
    }
  }
}
