/** Karmarkar-Karp partitioning: when it succeeds, what its parts hold, and how far their loads
    are from the best possible. */
module KarmarkarKarp {
  import opened BalancedSets
  import opened Differencing
  import opened IntSeqs
  import opened Lists
  import opened Partitions
  import opened StartingTuples

  function Idxs(items: seq<Item>): (idxs: seq<nat>)
    ensures |idxs| == |items|
  {
    seq(|items|, i requires 0 <= i < |items| => items[i].idx)
  }

  function Parts(s: seq<SetV>): (parts: seq<seq<nat>>)
    ensures |parts| == |s|
  {
    seq(|s|, i requires 0 <= i < |s| => Idxs(s[i].items))
  }

  /** The calls that return a partition. */
  predicate Runs(n: nat, k: int, equal: bool) {
    n >= 1 && k >= 1 && (equal ==> n % k == 0)
  }

  function StartOf(items: seq<Item>, k: nat, equal: bool): seq<seq<SetV>>
    requires k >= 1
  {
    if equal then Blocks(items, k) else Singles(items, k)
  }

  function Start(vs: seq<int>, k: nat, equal: bool): seq<seq<SetV>>
    requires k >= 1
  {
    StartOf(SortItems(ItemsOf(vs)), k, equal)
  }

  lemma WholeBlocks(n: nat, k: nat) returns (b: nat)
    requires k >= 1 && n % k == 0
    ensures n == b * k
  {
    b := n / k;
  }

  lemma TuplesHold(items: seq<Item>, k: nat, equal: bool, x: Item)
    requires Runs(|items|, k, equal)
    ensures var pq := StartOf(items, k, equal);
            pq != [] && Tuples(pq, k) && Sum(Counts(pq, x)) == multiset(items)[x]
  {
    if equal {
      var b := WholeBlocks(|items|, k);
      BlocksAre(items, k, b, x);
    } else {
      SinglesAre(items, k, x);
    }
  }

  lemma StartHolds(vs: seq<int>, k: nat, equal: bool, x: Item)
    requires Runs(|vs|, k, equal)
    ensures Start(vs, k, equal) != [] && Tuples(Start(vs, k, equal), k)
    ensures Sum(Counts(Start(vs, k, equal), x)) == multiset(ItemsOf(vs))[x]
  {
    SortItemsSorts(ItemsOf(vs));
    TuplesHold(SortItems(ItemsOf(vs)), k, equal, x);
  }

  lemma StartIs(vs: seq<int>, k: nat, equal: bool)
    requires Runs(|vs|, k, equal)
    ensures Start(vs, k, equal) != [] && Tuples(Start(vs, k, equal), k)
  {
    StartHolds(vs, k, equal, Item(0, 0));
  }

  function Final(vs: seq<int>, k: nat, equal: bool): seq<SetV>
    requires Runs(|vs|, k, equal)
  {
    StartIs(vs, k, equal);
    Difference(Start(vs, k, equal), k)
  }

  predicate EvenParts(parts: seq<seq<nat>>, k: nat, n: nat) {
    forall i :: 0 <= i < |parts| ==> |parts[i]| * k == n
  }

  function Partition(vs: seq<int>, k: int, equal: bool): Outcome {
    if equal && k == 0 then ZeroDivisionError
    else if equal && |vs| % k != 0 then AssertionError
    else if |vs| == 0 || k < 1 then IndexError
    else
      var parts := Parts(Final(vs, k, equal));
      if equal && !EvenParts(parts, k, |vs|) then AssertionError else Ok(parts)
  }

  // --------------------------------------------------------------------------
  // The final tuple
  // --------------------------------------------------------------------------

  ghost predicate NonNegative(vs: seq<int>) {
    forall i :: 0 <= i < |vs| ==> vs[i] >= 0
  }

  /** A bound on the spread of every starting tuple. */
  ghost predicate WidthAtMost(vs: seq<int>, k: nat, equal: bool, w: int)
    requires k >= 1
  {
    if equal then BlockWidth(SortItems(ItemsOf(vs)), k) <= w
    else forall i :: 0 <= i < |vs| ==> vs[i] <= w
  }

  lemma SortedVals(vs: seq<int>, x: Item)
    requires x in SortItems(ItemsOf(vs))
    ensures x.idx < |vs| && x.val == vs[x.idx]
  {
    SortItemsSorts(ItemsOf(vs));
    assert x in multiset(SortItems(ItemsOf(vs)));
    assert x in ItemsOf(vs);
  }

  lemma StartQueueOk(vs: seq<int>, k: nat, equal: bool, w: int)
    requires k >= 1 && NonNegative(vs) && WidthAtMost(vs, k, equal, w)
    ensures QueueOk(Start(vs, k, equal), k, w)
  {
    var items := SortItems(ItemsOf(vs));
    SortItemsSorts(ItemsOf(vs));
    forall x | x in items
      ensures 0 <= x.val && (!equal ==> x.val <= w)
    {
      SortedVals(vs, x);
    }
    if equal {
      BlocksOk(items, k, w);
    } else {
      SinglesOk(items, k, w);
    }
  }

  lemma FinalOk(vs: seq<int>, k: nat, equal: bool, w: int)
    requires Runs(|vs|, k, equal) && NonNegative(vs) && WidthAtMost(vs, k, equal, w)
    ensures TupleOk(Final(vs, k, equal), k) && Spread(Final(vs, k, equal)) <= w
  {
    StartQueueOk(vs, k, equal, w);
    StartIs(vs, k, equal);
    DifferenceOk(Start(vs, k, equal), k, w);
  }

  lemma FinalBag(vs: seq<int>, k: nat, equal: bool)
    requires Runs(|vs|, k, equal)
    ensures Bag(Final(vs, k, equal)) == multiset(ItemsOf(vs))
  {
    var s := Final(vs, k, equal);
    forall x: Item
      ensures Bag(s)[x] == multiset(ItemsOf(vs))[x]
    {
      StartHolds(vs, k, equal, x);
      DifferenceCounts(Start(vs, k, equal), k, x);
    }
  }

  lemma {:induction false} ItemOnce(vs: seq<int>, x: Item)
    ensures multiset(ItemsOf(vs))[x] <= 1
    ensures x in ItemsOf(vs) ==> x.idx < |vs|
  {
    if vs != [] {
      var last := |vs| - 1;
      ItemOnce(vs[..last], x);
      assert ItemsOf(vs) == ItemsOf(vs[..last]) + [Item(last, vs[last])];
      assert x in multiset(ItemsOf(vs[..last])) ==> x in ItemsOf(vs[..last]);
    }
  }

  lemma StartedOnce(vs: seq<int>, k: nat, equal: bool, x: Item)
    requires Runs(|vs|, k, equal)
    ensures Sum(Counts(Start(vs, k, equal), x)) <= 1
  {
    StartHolds(vs, k, equal, x);
    ItemOnce(vs, x);
  }

  lemma StartedFilled(vs: seq<int>, k: nat, equal: bool, i: nat)
    requires Runs(|vs|, k, equal) && i < |Start(vs, k, equal)|
    ensures Filled(Start(vs, k, equal)[i]) >= 1
  {
    SortItemsSorts(ItemsOf(vs));
    if equal {
      BlocksStarted(SortItems(ItemsOf(vs)), k, i);
    } else {
      SinglesStarted(SortItems(ItemsOf(vs)), k, i);
    }
  }

  /** The starting queue repeats no item and has no empty tuple, so every pop of the run is forced. */
  lemma StartUnrepeated(vs: seq<int>, k: nat, equal: bool)
    requires Runs(|vs|, k, equal)
    ensures Unrepeated(Start(vs, k, equal))
  {
    forall x
      ensures Sum(Counts(Start(vs, k, equal), x)) <= 1
    {
      StartedOnce(vs, k, equal, x);
    }
    forall i: nat | i < |Start(vs, k, equal)|
      ensures Filled(Start(vs, k, equal)[i]) >= 1
    {
      StartedFilled(vs, k, equal, i);
    }
  }

  lemma {:induction false} NextsKeepLength(pq: seq<seq<SetV>>, k: nat)
    requires pq != [] && Tuples(pq, k)
    ensures |Difference(pq, k)| == k
    decreases |pq|
  {
    if |pq| > 1 {
      NextTuples(pq, k);
      NextsKeepLength(Next(pq, k), k);
    }
  }

  lemma FinalLength(vs: seq<int>, k: nat, equal: bool)
    requires Runs(|vs|, k, equal)
    ensures |Final(vs, k, equal)| == k
  {
    StartIs(vs, k, equal);
    NextsKeepLength(Start(vs, k, equal), k);
  }

  // --------------------------------------------------------------------------
  // Every index once
  // --------------------------------------------------------------------------

  function ItemLists(s: seq<SetV>): (lists: seq<seq<Item>>)
    ensures |lists| == |s|
  {
    seq(|s|, i requires 0 <= i < |s| => s[i].items)
  }

  lemma {:induction false} FlatBag(s: seq<SetV>)
    ensures multiset(Flatten(ItemLists(s))) == Bag(s)
  {
    if s != [] {
      calc {
        multiset(Flatten(ItemLists(s)));
        { assert ItemLists(s)[1..] == ItemLists(s[1..]); }
        multiset(s[0].items + Flatten(ItemLists(s[1..])));
        multiset(s[0].items) + multiset(Flatten(ItemLists(s[1..])));
        { FlatBag(s[1..]); }
        Bag(s);
      }
    }
  }

  lemma {:induction false} FlatIdxs(s: seq<SetV>)
    ensures Flatten(Parts(s)) == Idxs(Flatten(ItemLists(s)))
  {
    if s != [] {
      FlatIdxs(s[1..]);
      assert ItemLists(s)[1..] == ItemLists(s[1..]);
      assert Parts(s)[1..] == Parts(s[1..]);
    }
  }

  lemma {:induction false} PermutedIdxs(a: seq<Item>, b: seq<Item>)
    requires multiset(a) == multiset(b)
    ensures multiset(Idxs(a)) == multiset(Idxs(b))
    decreases |a|
  {
    assert |a| == |multiset(a)| == |multiset(b)| == |b|;
    if a != [] {
      var init := a[..|a| - 1];
      var i := MatchLast(a, b);
      var c := b[..i] + b[i + 1..];
      PermutedIdxs(init, c);
      assert Idxs(a) == Idxs(init) + [a[|a| - 1].idx];
      RemoveAt(Idxs(b), i);
      assert Idxs(c) == Idxs(b)[..i] + Idxs(b)[i + 1..];
    }
  }

  lemma PartsExactlyOnce(vs: seq<int>, s: seq<SetV>)
    requires Bag(s) == multiset(ItemsOf(vs))
    ensures ExactlyOnce(Parts(s), |vs|)
  {
    FlatBag(s);
    FlatIdxs(s);
    PermutedIdxs(Flatten(ItemLists(s)), ItemsOf(vs));
    assert Idxs(ItemsOf(vs)) == Range(|vs|);
  }

  lemma ItemIsIndexed(vs: seq<int>, s: seq<SetV>, i: nat, x: Item)
    requires Bag(s) == multiset(ItemsOf(vs)) && i < |s| && x in s[i].items
    ensures x.idx < |vs| && x.val == vs[x.idx]
  {
    InBag(s, i, x);
    assert x in ItemsOf(vs);
  }

  /** The sum a set carries is the load of its indices. */
  lemma SetLoad(vs: seq<int>, s: seq<SetV>, i: nat)
    requires Bag(s) == multiset(ItemsOf(vs)) && i < |s| && Wf(s[i])
    ensures Inside(Parts(s)[i], |vs|) && Load(vs, Parts(s)[i]) == s[i].sum
  {
    var items := s[i].items;
    forall j | 0 <= j < |items|
      ensures items[j].idx < |vs| && items[j].val == vs[items[j].idx]
    {
      ItemIsIndexed(vs, s, i, items[j]);
    }
    assert Vals(items) == At(vs, Idxs(items));
  }

  // --------------------------------------------------------------------------
  // What the caller gets
  // --------------------------------------------------------------------------

  lemma FinalEven(vs: seq<int>, k: nat)
    requires Runs(|vs|, k, true)
    ensures Even(Final(vs, k, true))
  {
    StartIs(vs, k, true);
    BlocksEven(SortItems(ItemsOf(vs)), k);
    DifferenceEven(Start(vs, k, true), k);
  }

  lemma EvenIs(s: seq<SetV>, m: nat, k: nat, n: nat)
    requires AllSize(s, m) && k * m == n
    ensures EvenParts(Parts(s), k, n)
  {
    assert m * k == n;
  }

  /** The equal-size check at the end never fails. */
  lemma EqualSizes(vs: seq<int>, k: nat)
    requires Runs(|vs|, k, true)
    ensures EvenParts(Parts(Final(vs, k, true)), k, |vs|)
  {
    var s := Final(vs, k, true);
    FinalEven(vs, k);
    FinalLength(vs, k, true);
    FinalBag(vs, k, true);
    var m := |s[0].items|;
    BagSize(s, m);
    assert |multiset(ItemsOf(vs))| == |vs|;
    EvenIs(s, m, k, |vs|);
  }

  /** Partitioning succeeds exactly on a non-empty list, a positive k and, for equal sizes, a
      length that k divides. */
  lemma Succeeds(vs: seq<int>, k: int, equal: bool)
    ensures Partition(vs, k, equal).Ok? <==> Runs(|vs|, k, equal)
    ensures Partition(vs, k, equal).Ok? ==>
              Partition(vs, k, equal).parts == Parts(Final(vs, k, equal))
  {
    if Runs(|vs|, k, equal) && equal {
      EqualSizes(vs, k);
    }
  }

  /** The parts contain each index exactly once, and there are k of them. */
  lemma CoversOnce(vs: seq<int>, k: int, equal: bool)
    requires Runs(|vs|, k, equal)
    ensures var r := Partition(vs, k, equal); r.Ok? && |r.parts| == k && ExactlyOnce(r.parts, |vs|)
  {
    Succeeds(vs, k, equal);
    FinalLength(vs, k, equal);
    FinalBag(vs, k, equal);
    PartsExactlyOnce(vs, Final(vs, k, equal));
  }

  lemma StartFilled(vs: seq<int>, k: nat, equal: bool)
    requires Runs(|vs|, k, equal)
    ensures Sum(Fills(Start(vs, k, equal))) == |vs|
  {
    var items := SortItems(ItemsOf(vs));
    SortItemsSorts(ItemsOf(vs));
    if equal {
      var b := WholeBlocks(|vs|, k);
      BlocksFilled(items, k, b);
    } else {
      SinglesFilled(items, k);
    }
  }

  lemma {:induction false} SomeWidth(vs: seq<int>) returns (w: int)
    ensures forall i :: 0 <= i < |vs| ==> vs[i] <= w
  {
    w := 0;
    if vs != [] {
      var last := |vs| - 1;
      var before := SomeWidth(vs[..last]);
      w := if vs[last] > before then vs[last] else before;
    }
  }

  /** With at least k items no part is empty, zero-valued items included. */
  lemma NoneEmpty(vs: seq<int>, k: int, equal: bool)
    requires Runs(|vs|, k, equal) && NonNegative(vs) && |vs| >= k
    ensures forall i :: 0 <= i < k ==>
              var r := Partition(vs, k, equal);
              r.Ok? && |r.parts| == k && r.parts[i] != []
  {
    CoversOnce(vs, k, equal);
    Succeeds(vs, k, equal);
    FinalLength(vs, k, equal);
    StartIs(vs, k, equal);
    StartFilled(vs, k, equal);
    var w := SomeWidth(vs);
    if equal {
      w := BlockWidth(SortItems(ItemsOf(vs)), k);
    }
    StartQueueOk(vs, k, equal, w);
    DifferenceFilled(Start(vs, k, equal), k, w);
    AllFilled(Final(vs, k, equal));
  }

  /** No two parts differ by more than the widest starting tuple. */
  lemma LoadsClose(vs: seq<int>, k: int, equal: bool, w: int, p: nat, q: nat)
    requires Runs(|vs|, k, equal) && NonNegative(vs) && WidthAtMost(vs, k, equal, w) && p < k && q < k
    ensures var r := Partition(vs, k, equal);
            && r.Ok? && |r.parts| == k && ExactlyOnce(r.parts, |vs|)
            && Loads(vs, r.parts)[p] - Loads(vs, r.parts)[q] <= w
  {
    CoversOnce(vs, k, equal);
    Succeeds(vs, k, equal);
    var s := Final(vs, k, equal);
    FinalOk(vs, k, equal, w);
    FinalBag(vs, k, equal);
    SetLoad(vs, s, p);
    SetLoad(vs, s, q);
    WithinSpread(s, k, p, q);
  }

  /** k times any load is at most the total plus (k - 1) times that width. */
  lemma NearAverage(vs: seq<int>, k: int, equal: bool, w: int, p: nat)
    requires Runs(|vs|, k, equal) && NonNegative(vs) && WidthAtMost(vs, k, equal, w) && p < k
    ensures var r := Partition(vs, k, equal);
            && r.Ok? && |r.parts| == k && ExactlyOnce(r.parts, |vs|)
            && k * Loads(vs, r.parts)[p] <= Sum(vs) + (k - 1) * w
  {
    CoversOnce(vs, k, equal);
    var loads := Loads(vs, Partition(vs, k, equal).parts);
    forall q: nat | q < k
      ensures loads[p] - loads[q] <= w
    {
      LoadsClose(vs, k, equal, w, p, q);
    }
    SpreadBound(loads, w, p);
    LoadsTotal(vs, Partition(vs, k, equal).parts);
  }

  lemma {:induction false} WidthWithinItem(items: seq<Item>, k: nat, w: int)
    requires k >= 1 && w >= 0 && forall x :: x in items ==> 0 <= x.val <= w
    ensures BlockWidth(items, k) <= w
  {
    if |items| >= k {
      WidthWithinItem(items[..|items| - k], k, w);
      assert items[|items| - 1] in items && items[|items| - k] in items;
    }
  }

  /** Against every assignment of the items to k parts: if none of its loads exceeds `most`, no
      load here exceeds (2k - 1) / k of it. */
  lemma NearOptimal(vs: seq<int>, k: int, equal: bool, assign: seq<nat>, most: int, p: nat)
    requires Runs(|vs|, k, equal) && NonNegative(vs) && p < k
    requires |assign| == |vs| && forall i :: 0 <= i < |vs| ==> assign[i] < k
    requires forall q: nat :: q < k ==> AssignedLoad(vs, assign, q) <= most
    ensures var r := Partition(vs, k, equal);
            && r.Ok? && |r.parts| == k && ExactlyOnce(r.parts, |vs|)
            && k * Loads(vs, r.parts)[p] <= (2 * k - 1) * most
  {
    EveryAssignment(vs, assign, k, most);
    var items := SortItems(ItemsOf(vs));
    forall x | x in items
      ensures 0 <= x.val <= most
    {
      SortedVals(vs, x);
    }
    assert vs[0] <= most;
    WidthWithinItem(items, k, most);
    NearAverage(vs, k, equal, most, p);
    AgainstAssignment(k, Loads(vs, Partition(vs, k, equal).parts)[p], Sum(vs), most);
  }
}
