/** The tuples Karmarkar-Karp differencing starts from: one per item, or one per run of k items
    in ascending order when the parts are to have equal sizes. */
module StartingTuples {
  import opened IntSeqs
  import opened BalancedSets
  import opened Differencing

  // --------------------------------------------------------------------------
  // Sorted items and starting tuples
  // --------------------------------------------------------------------------

  function ItemsOf(vs: seq<int>): (items: seq<Item>)
    ensures |items| == |vs|
  {
    seq(|vs|, i requires 0 <= i < |vs| => Item(i, vs[i]))
  }

  /** Ascending by value, then by index. */
  predicate Before(a: Item, b: Item) {
    a.val < b.val || (a.val == b.val && a.idx <= b.idx)
  }

  function InsertItem(x: Item, s: seq<Item>): seq<Item> {
    if s == [] || Before(x, s[0]) then [x] + s else [s[0]] + InsertItem(x, s[1..])
  }

  function SortItems(s: seq<Item>): seq<Item> {
    if s == [] then [] else InsertItem(s[0], SortItems(s[1..]))
  }

  ghost predicate Rising(s: seq<Item>) {
    forall i, j :: 0 <= i < j < |s| ==> s[i].val <= s[j].val
  }

  lemma {:induction false} InsertItemPermutes(x: Item, s: seq<Item>)
    ensures multiset(InsertItem(x, s)) == multiset{x} + multiset(s) && |InsertItem(x, s)| == |s| + 1
  {
    if s != [] && !Before(x, s[0]) {
      InsertItemPermutes(x, s[1..]);
      assert s == [s[0]] + s[1..];
    }
  }

  lemma {:induction false} InsertItemLeast(x: Item, s: seq<Item>, least: int)
    requires x.val >= least && forall i :: 0 <= i < |s| ==> s[i].val >= least
    ensures forall i :: 0 <= i < |InsertItem(x, s)| ==> InsertItem(x, s)[i].val >= least
  {
    if s != [] && !Before(x, s[0]) {
      InsertItemLeast(x, s[1..], least);
    }
  }

  lemma {:induction false} InsertItemSorts(x: Item, s: seq<Item>)
    requires Rising(s)
    ensures Rising(InsertItem(x, s))
  {
    if s != [] && !Before(x, s[0]) {
      var rest := s[1..];
      InsertItemSorts(x, rest);
      InsertItemLeast(x, rest, s[0].val);
    }
  }

  lemma {:induction false} SortItemsSorts(s: seq<Item>)
    ensures multiset(SortItems(s)) == multiset(s) && |SortItems(s)| == |s| && Rising(SortItems(s))
  {
    if s != [] {
      SortItemsSorts(s[1..]);
      InsertItemPermutes(s[0], SortItems(s[1..]));
      InsertItemSorts(s[0], SortItems(s[1..]));
      assert s == [s[0]] + s[1..];
    }
  }

  /** The sets of a new tuple before they are sorted: item i alone in set i, the rest empty. */
  function Seats(items: seq<Item>, k: nat): (s: seq<SetV>)
    ensures |s| == k
  {
    seq(k, i requires 0 <= i < k => if i < |items| then SetV(items[i].val, [items[i]]) else SetV(0, []))
  }

  function Tuple(items: seq<Item>, k: nat): seq<SetV> {
    SortDesc(Seats(items, k))
  }

  function Singles(items: seq<Item>, k: nat): seq<seq<SetV>> {
    if items == [] then []
    else Singles(items[..|items| - 1], k) + [Tuple(items[|items| - 1..], k)]
  }

  /** Consecutive runs of k items, one tuple each. */
  function Blocks(items: seq<Item>, k: nat): seq<seq<SetV>>
    requires k >= 1
  {
    if |items| < k then []
    else Blocks(items[..|items| - k], k) + [Tuple(items[|items| - k..], k)]
  }

  // --------------------------------------------------------------------------
  // What the starting tuples are like
  // --------------------------------------------------------------------------

  lemma SeatsSum(items: seq<Item>, k: nat, i: nat)
    requires i < k
    ensures Seats(items, k)[i].sum == Sum(Vals(Seats(items, k)[i].items))
  {
    var s := Seats(items, k)[i];
    if i < |items| {
      assert Vals(s.items) == [] + [items[i].val];
      SumSnoc([], items[i].val);
    } else {
      assert Vals(s.items) == [];
    }
  }

  lemma TupleLength(items: seq<Item>, k: nat)
    ensures |Tuple(items, k)| == k
  {
    SortDescSorts(Seats(items, k));
  }

  /** A tuple whose seats differ by at most w, all of them non-negative, may enter the queue. */
  lemma TupleIsOk(items: seq<Item>, k: nat, w: int)
    requires k >= 1 && forall x :: x in items ==> x.val >= 0
    requires forall i, j :: 0 <= i < k && 0 <= j < k ==> Seats(items, k)[i].sum - Seats(items, k)[j].sum <= w
    ensures TupleOk(Tuple(items, k), k) && Spread(Tuple(items, k)) <= w
  {
    var s := Seats(items, k);
    forall i: nat | i < k
      ensures Wf(s[i])
    {
      SeatsSum(items, k, i);
    }
    SortedTupleOk(s, k);
    SortedSpread(s, k, w);
  }

  lemma {:induction false} EmptySeatsBag(k: nat)
    ensures Bag(Seats([], k)) == multiset{}
  {
    if k > 0 {
      EmptySeatsBag(k - 1);
      assert Seats([], k)[1..] == Seats([], k - 1);
    }
  }

  lemma {:induction false} SeatsBag(items: seq<Item>, k: nat)
    requires |items| <= k
    ensures Bag(Seats(items, k)) == multiset(items)
  {
    if items == [] {
      EmptySeatsBag(k);
    } else {
      var s := Seats(items, k);
      calc {
        Bag(s);
        { assert s[0].items == [items[0]] && s[1..] == Seats(items[1..], k - 1); }
        multiset([items[0]]) + Bag(Seats(items[1..], k - 1));
        { SeatsBag(items[1..], k - 1); }
        multiset([items[0]]) + multiset(items[1..]);
        multiset([items[0]] + items[1..]);
        { assert items == [items[0]] + items[1..]; }
        multiset(items);
      }
    }
  }

  lemma TupleBag(items: seq<Item>, k: nat)
    requires |items| <= k
    ensures Bag(Tuple(items, k)) == multiset(items)
  {
    SeatsBag(items, k);
    SortDescBag(Seats(items, k));
  }

  /** Adding the tuple of the items from `cut` on to a queue holding those before it. */
  lemma QueueGrows(pq: seq<seq<SetV>>, items: seq<Item>, cut: nat, k: nat, x: Item)
    requires cut <= |items| <= cut + k && Tuples(pq, k) && Sum(Counts(pq, x)) == multiset(items[..cut])[x]
    ensures Tuples(pq + [Tuple(items[cut..], k)], k)
    ensures Sum(Counts(pq + [Tuple(items[cut..], k)], x)) == multiset(items)[x]
  {
    var tail := items[cut..];
    TupleLength(tail, k);
    TupleBag(tail, k);
    CountsSnoc(pq, Tuple(tail, k), x);
    assert items == items[..cut] + tail;
  }

  lemma {:induction false} SinglesAre(items: seq<Item>, k: nat, x: Item)
    requires k >= 1
    ensures |Singles(items, k)| == |items| && Tuples(Singles(items, k), k)
    ensures Sum(Counts(Singles(items, k), x)) == multiset(items)[x]
  {
    if items != [] {
      var last := |items| - 1;
      SinglesAre(items[..last], k, x);
      QueueGrows(Singles(items[..last], k), items, last, k, x);
    }
  }

  lemma ProductGrows(q: nat, k: nat)
    ensures (q + 1) * k == q * k + k && q * k >= 0
  {
  }

  lemma NoBlocks(items: seq<Item>, k: nat)
    requires |items| == 0 < k
    ensures Blocks(items, k) == []
  {
  }

  /** One more run of k items. */
  lemma BlocksMore(items: seq<Item>, k: nat, x: Item)
    requires |items| >= k >= 1
    requires var init := items[..|items| - k];
             Tuples(Blocks(init, k), k) && Sum(Counts(Blocks(init, k), x)) == multiset(init)[x]
    ensures |Blocks(items, k)| == |Blocks(items[..|items| - k], k)| + 1 && Tuples(Blocks(items, k), k)
    ensures Sum(Counts(Blocks(items, k), x)) == multiset(items)[x]
  {
    var cut := |items| - k;
    QueueGrows(Blocks(items[..cut], k), items, cut, k, x);
  }

  lemma {:induction false} BlocksAre(items: seq<Item>, k: nat, b: nat, x: Item)
    requires k >= 1 && |items| == b * k
    ensures |Blocks(items, k)| == b && Tuples(Blocks(items, k), k)
    ensures Sum(Counts(Blocks(items, k), x)) == multiset(items)[x]
    decreases b
  {
    if b > 0 {
      ProductGrows(b - 1, k);
      BlocksAre(items[..|items| - k], k, b - 1, x);
      BlocksMore(items, k, x);
    } else {
      NoBlocks(items, k);
    }
  }

  // --------------------------------------------------------------------------
  // Their spread
  // --------------------------------------------------------------------------

  ghost predicate AllIn(items: seq<Item>, w: int) {
    forall x :: x in items ==> 0 <= x.val <= w
  }

  lemma SingleOk(items: seq<Item>, k: nat, w: int)
    requires k >= 1 && |items| == 1 && AllIn(items, w)
    ensures TupleOk(Tuple(items, k), k) && Spread(Tuple(items, k)) <= w
  {
    assert items[0] in items;
    TupleIsOk(items, k, w);
  }

  lemma {:induction false} SinglesOk(items: seq<Item>, k: nat, w: int)
    requires k >= 1 && AllIn(items, w)
    ensures QueueOk(Singles(items, k), k, w)
  {
    if items != [] {
      var last := |items| - 1;
      SinglesOk(items[..last], k, w);
      SingleOk(items[last..], k, w);
    }
  }

  /** The largest gap between the ends of a run of k consecutive items. */
  function BlockWidth(items: seq<Item>, k: nat): int
    requires k >= 1
  {
    if |items| < k then 0
    else
      var cut := |items| - k;
      var rest := BlockWidth(items[..cut], k);
      var width := items[|items| - 1].val - items[cut].val;
      if width > rest then width else rest
  }

  lemma BlockOk(items: seq<Item>, k: nat, w: int)
    requires k >= 1 && |items| == k && Rising(items) && items[k - 1].val - items[0].val <= w
    requires forall x :: x in items ==> x.val >= 0
    ensures TupleOk(Tuple(items, k), k) && Spread(Tuple(items, k)) <= w
  {
    forall i, j | 0 <= i < k && 0 <= j < k
      ensures Seats(items, k)[i].sum - Seats(items, k)[j].sum <= w
    {
      assert items[i].val <= items[k - 1].val && items[0].val <= items[j].val;
    }
    TupleIsOk(items, k, w);
  }

  lemma RisingParts(items: seq<Item>, cut: nat)
    requires cut <= |items| && Rising(items) && forall x :: x in items ==> x.val >= 0
    ensures Rising(items[..cut]) && Rising(items[cut..])
    ensures forall x :: x in items[..cut] ==> x.val >= 0
    ensures forall x :: x in items[cut..] ==> x.val >= 0
  {
    var tail := items[cut..];
    forall i, j | 0 <= i < j < |tail|
      ensures tail[i].val <= tail[j].val
    {
      assert tail[i] == items[cut + i] && tail[j] == items[cut + j];
    }
  }

  lemma QueueOkMore(pq: seq<seq<SetV>>, t: seq<SetV>, k: nat, w: int)
    requires QueueOk(pq, k, w) && TupleOk(t, k) && Spread(t) <= w
    ensures QueueOk(pq + [t], k, w)
  {
  }

  lemma {:induction false} BlocksOk(items: seq<Item>, k: nat, w: int)
    requires k >= 1 && Rising(items) && BlockWidth(items, k) <= w
    requires forall x :: x in items ==> x.val >= 0
    ensures QueueOk(Blocks(items, k), k, w)
  {
    if |items| >= k {
      var cut := |items| - k;
      RisingParts(items, cut);
      BlocksOk(items[..cut], k, w);
      BlockOk(items[cut..], k, w);
      QueueOkMore(Blocks(items[..cut], k), Tuple(items[cut..], k), k, w);
    }
  }

  // --------------------------------------------------------------------------
  // Their filled sets and sizes
  // --------------------------------------------------------------------------

  lemma TupleFilled(items: seq<Item>, k: nat)
    requires |items| <= k
    ensures Filled(Tuple(items, k)) == |items|
  {
    var s := Seats(items, k);
    SortDescFilled(s);
    assert s == s[..|items|] + s[|items|..];
    FilledAll(s[..|items|], true);
    FilledAll(s[|items|..], false);
    FilledConcat(s[..|items|], s[|items|..]);
  }

  lemma {:induction false} SinglesFilled(items: seq<Item>, k: nat)
    requires k >= 1
    ensures Sum(Fills(Singles(items, k))) == |items|
  {
    if items != [] {
      var last := |items| - 1;
      SinglesFilled(items[..last], k);
      TupleFilled(items[last..], k);
      FillsSnoc(Singles(items[..last], k), Tuple(items[last..], k));
    }
  }

  lemma {:induction false} BlocksFilled(items: seq<Item>, k: nat, b: nat)
    requires k >= 1 && |items| == b * k
    ensures Sum(Fills(Blocks(items, k))) == |items|
    decreases b
  {
    if b > 0 {
      ProductGrows(b - 1, k);
      var cut := |items| - k;
      BlocksFilled(items[..cut], k, b - 1);
      TupleFilled(items[cut..], k);
      FillsSnoc(Blocks(items[..cut], k), Tuple(items[cut..], k));
    }
  }

  lemma {:induction false} SinglesStarted(items: seq<Item>, k: nat, i: nat)
    requires k >= 1 && i < |Singles(items, k)|
    ensures Filled(Singles(items, k)[i]) >= 1
  {
    var last := |items| - 1;
    if i < |Singles(items[..last], k)| {
      SinglesStarted(items[..last], k, i);
    } else {
      TupleFilled(items[last..], k);
    }
  }

  lemma {:induction false} BlocksStarted(items: seq<Item>, k: nat, i: nat)
    requires k >= 1 && i < |Blocks(items, k)|
    ensures Filled(Blocks(items, k)[i]) >= 1
  {
    var cut := |items| - k;
    if i < |Blocks(items[..cut], k)| {
      BlocksStarted(items[..cut], k, i);
    } else {
      TupleFilled(items[cut..], k);
    }
  }

  lemma {:induction false} BlocksEven(items: seq<Item>, k: nat)
    requires k >= 1
    ensures QueueEven(Blocks(items, k))
  {
    if |items| >= k {
      var cut := |items| - k;
      BlocksEven(items[..cut], k);
      SortDescAllSize(Seats(items[cut..], k), 1);
      TupleLength(items[cut..], k);
    }
  }
}
