/** Karmarkar-Karp differencing as a function: a queue of tuples, the two widest merged until
    one is left, and what every merge keeps. */
module Differencing {
  import opened IntSeqs
  import opened BalancedSets

  // --------------------------------------------------------------------------
  // The queue
  // --------------------------------------------------------------------------

  /** Which of two tuples the heap gives up first: the wider, then the one with the larger top set. */
  predicate StateLess(a: seq<SetV>, b: seq<SetV>)
    requires a != [] && b != []
  {
    if Spread(a) != Spread(b) then Spread(a) > Spread(b) else SetLess(b[0], a[0])
  }

  predicate Tuples(pq: seq<seq<SetV>>, k: nat) {
    k >= 1 && forall i :: 0 <= i < |pq| ==> |pq[i]| == k
  }

  /** Position of the least of the first n tuples. */
  function LeastUpTo(pq: seq<seq<SetV>>, k: nat, n: nat): (i: nat)
    requires 1 <= n <= |pq| && Tuples(pq, k)
    ensures i < n
  {
    if n == 1 then 0
    else
      var i := LeastUpTo(pq, k, n - 1);
      if StateLess(pq[n - 1], pq[i]) then n - 1 else i
  }

  /** Position of the tuple popped next. */
  function LeastIndex(pq: seq<seq<SetV>>, k: nat): (i: nat)
    requires pq != [] && Tuples(pq, k)
    ensures i < |pq|
  {
    LeastUpTo(pq, k, |pq|)
  }

  lemma NotLessTransitive(a: seq<SetV>, b: seq<SetV>, c: seq<SetV>)
    requires a != [] && b != [] && c != []
    requires !StateLess(a, b) && !StateLess(b, c)
    ensures !StateLess(a, c)
  {
    if Spread(a) == Spread(b) == Spread(c) {
      GeqTransitive(c[0], b[0], a[0]);
    }
  }

  lemma {:induction false} LeastIsLeast(pq: seq<seq<SetV>>, k: nat, n: nat, j: nat)
    requires Tuples(pq, k) && j < n <= |pq|
    ensures !StateLess(pq[j], pq[LeastUpTo(pq, k, n)])
  {
    var last := n - 1;
    SetLessTotal(pq[last][0], pq[last][0]);
    if last > 0 {
      var i := LeastUpTo(pq, k, last);
      SetLessTotal(pq[last][0], pq[i][0]);
      if j < last {
        LeastIsLeast(pq, k, last, j);
        if StateLess(pq[last], pq[i]) {
          NotLessTransitive(pq[j], pq[i], pq[last]);
        }
      }
    }
  }

  /** Tuples over different items never tie, so the popped tuple does not depend on heap layout. */
  lemma NoTies(a: seq<SetV>, b: seq<SetV>)
    requires a != [] && b != []
    requires a[0].items != [] && forall x :: x in a[0].items ==> x !in b[0].items
    ensures StateLess(a, b) <==> !StateLess(b, a)
  {
    SetLessTotal(a[0], b[0]);
    assert a[0].items[0] in a[0].items;
    assert a[0] != b[0];
  }

  function Without(pq: seq<seq<SetV>>, i: nat): (r: seq<seq<SetV>>)
    requires i < |pq|
    ensures |r| == |pq| - 1
    ensures forall j :: 0 <= j < |r| ==> r[j] == if j < i then pq[j] else pq[j + 1]
  {
    pq[..i] + pq[i + 1..]
  }

  /** One round: the two least tuples leave the queue and their merge enters it. */
  function Next(pq: seq<seq<SetV>>, k: nat): (r: seq<seq<SetV>>)
    requires |pq| > 1 && Tuples(pq, k)
    ensures |r| == |pq| - 1
  {
    var i := LeastIndex(pq, k);
    var rest := Without(pq, i);
    var j := LeastIndex(rest, k);
    Without(rest, j) + [MergeTuples(pq[i], rest[j])]
  }

  lemma NextTuples(pq: seq<seq<SetV>>, k: nat)
    requires |pq| > 1 && Tuples(pq, k)
    ensures Tuples(Next(pq, k), k)
  {
    var i := LeastIndex(pq, k);
    var rest := Without(pq, i);
    SortDescSorts(Pair(pq[i], rest[LeastIndex(rest, k)]));
  }

  function Difference(pq: seq<seq<SetV>>, k: nat): seq<SetV>
    requires pq != [] && Tuples(pq, k)
    decreases |pq|
  {
    if |pq| == 1 then pq[0]
    else
      NextTuples(pq, k);
      Difference(Next(pq, k), k)
  }

  // --------------------------------------------------------------------------
  // Order, sums and spread
  // --------------------------------------------------------------------------

  ghost predicate QueueOk(pq: seq<seq<SetV>>, k: nat, w: int) {
    k >= 1 && forall i :: 0 <= i < |pq| ==> TupleOk(pq[i], k) && Spread(pq[i]) <= w
  }

  lemma MergedOk(pq: seq<seq<SetV>>, k: nat, w: int, i: nat, j: nat)
    requires QueueOk(pq, k, w) && i < |pq| && j < |pq| - 1
    ensures var rest := Without(pq, i);
            |pq[i]| == |rest[j]| && QueueOk(Without(rest, j) + [MergeTuples(pq[i], rest[j])], k, w)
  {
    var rest := Without(pq, i);
    MergeOk(pq[i], rest[j], k);
    MergeSpread(pq[i], rest[j], k, w);
  }

  lemma NextOk(pq: seq<seq<SetV>>, k: nat, w: int)
    requires |pq| > 1 && Tuples(pq, k) && QueueOk(pq, k, w)
    ensures QueueOk(Next(pq, k), k, w)
  {
    var i := LeastIndex(pq, k);
    MergedOk(pq, k, w, i, LeastIndex(Without(pq, i), k));
  }

  lemma {:induction false} DifferenceOk(pq: seq<seq<SetV>>, k: nat, w: int)
    requires pq != [] && Tuples(pq, k) && QueueOk(pq, k, w)
    ensures TupleOk(Difference(pq, k), k) && Spread(Difference(pq, k)) <= w
    decreases |pq|
  {
    if |pq| > 1 {
      NextTuples(pq, k);
      NextOk(pq, k, w);
      DifferenceOk(Next(pq, k), k, w);
    }
  }

  // --------------------------------------------------------------------------
  // Items are conserved
  // --------------------------------------------------------------------------

  /** How often an item occurs in each tuple of the queue. */
  function Counts(pq: seq<seq<SetV>>, x: Item): (c: seq<int>)
    ensures |c| == |pq|
  {
    seq(|pq|, i requires 0 <= i < |pq| => Bag(pq[i])[x])
  }

  lemma CountsWithout(pq: seq<seq<SetV>>, i: nat, x: Item)
    requires i < |pq|
    ensures Sum(Counts(pq, x)) == Sum(Counts(Without(pq, i), x)) + Bag(pq[i])[x]
  {
    SumRemove(Counts(pq, x), Counts(Without(pq, i), x), i);
  }

  lemma CountsSnoc(pq: seq<seq<SetV>>, s: seq<SetV>, x: Item)
    ensures Sum(Counts(pq + [s], x)) == Sum(Counts(pq, x)) + Bag(s)[x]
  {
    SumAppend(Counts(pq, x), Counts(pq + [s], x));
  }

  lemma NextCounts(pq: seq<seq<SetV>>, k: nat, x: Item)
    requires |pq| > 1 && Tuples(pq, k)
    ensures Sum(Counts(Next(pq, k), x)) == Sum(Counts(pq, x))
  {
    var i := LeastIndex(pq, k);
    var rest := Without(pq, i);
    var j := LeastIndex(rest, k);
    CountsWithout(pq, i, x);
    CountsWithout(rest, j, x);
    MergeBag(pq[i], rest[j]);
    CountsSnoc(Without(rest, j), MergeTuples(pq[i], rest[j]), x);
  }

  /** The last tuple holds every item as often as the queue did. */
  lemma {:induction false} DifferenceCounts(pq: seq<seq<SetV>>, k: nat, x: Item)
    requires pq != [] && Tuples(pq, k)
    ensures Bag(Difference(pq, k))[x] == Sum(Counts(pq, x))
    decreases |pq|
  {
    if |pq| > 1 {
      NextTuples(pq, k);
      NextCounts(pq, k, x);
      DifferenceCounts(Next(pq, k), k, x);
    } else {
      assert Counts(pq, x) == [] + [Bag(pq[0])[x]];
      SumSnoc([], Bag(pq[0])[x]);
    }
  }

  // --------------------------------------------------------------------------
  // Non-empty sets
  // --------------------------------------------------------------------------

  function Fills(pq: seq<seq<SetV>>): (f: seq<int>)
    ensures |f| == |pq|
  {
    seq(|pq|, i requires 0 <= i < |pq| => Filled(pq[i]))
  }

  lemma FillsWithout(pq: seq<seq<SetV>>, i: nat)
    requires i < |pq|
    ensures Sum(Fills(pq)) == Sum(Fills(Without(pq, i))) + Filled(pq[i])
  {
    SumRemove(Fills(pq), Fills(Without(pq, i)), i);
  }

  lemma FillsSnoc(pq: seq<seq<SetV>>, s: seq<SetV>)
    ensures Sum(Fills(pq + [s])) == Sum(Fills(pq)) + Filled(s)
  {
    SumAppend(Fills(pq), Fills(pq + [s]));
  }

  lemma FillsAfterMerge(pq: seq<seq<SetV>>, k: nat, i: nat, j: nat)
    requires i < |pq| && j < |pq| - 1 && Sum(Fills(pq)) >= k
    requires TupleOk(pq[i], k) && TupleOk(Without(pq, i)[j], k)
    ensures var rest := Without(pq, i);
            && |pq[i]| == |rest[j]|
            && Sum(Fills(Without(rest, j) + [MergeTuples(pq[i], rest[j])])) >= k
  {
    var rest := Without(pq, i);
    var left := Without(rest, j);
    FillsWithout(pq, i);
    FillsWithout(rest, j);
    FillsSnoc(left, MergeTuples(pq[i], rest[j]));
    MergeFilled(pq[i], rest[j], k);
    SumNonNegative(Fills(left));
  }

  lemma MergedFills(pq: seq<seq<SetV>>, k: nat, w: int, i: nat, j: nat)
    requires QueueOk(pq, k, w) && i < |pq| && j < |pq| - 1 && Sum(Fills(pq)) >= k
    ensures var rest := Without(pq, i);
            && |pq[i]| == |rest[j]|
            && Sum(Fills(Without(rest, j) + [MergeTuples(pq[i], rest[j])])) >= k
  {
    FillsAfterMerge(pq, k, i, j);
  }

  lemma NextFills(pq: seq<seq<SetV>>, k: nat, w: int)
    requires |pq| > 1 && Tuples(pq, k) && QueueOk(pq, k, w) && Sum(Fills(pq)) >= k
    ensures Sum(Fills(Next(pq, k))) >= k
  {
    var i := LeastIndex(pq, k);
    MergedFills(pq, k, w, i, LeastIndex(Without(pq, i), k));
  }

  /** With at least k filled sets in the queue, every set of the last tuple is filled. */
  lemma {:induction false} DifferenceFilled(pq: seq<seq<SetV>>, k: nat, w: int)
    requires pq != [] && Tuples(pq, k) && QueueOk(pq, k, w) && Sum(Fills(pq)) >= k
    ensures Filled(Difference(pq, k)) >= k
    decreases |pq|
  {
    if |pq| > 1 {
      NextTuples(pq, k);
      NextOk(pq, k, w);
      NextFills(pq, k, w);
      DifferenceFilled(Next(pq, k), k, w);
    } else {
      assert Fills(pq) == [] + [Filled(pq[0])];
      SumSnoc([], Filled(pq[0]));
    }
  }

  // --------------------------------------------------------------------------
  // Equal sizes
  // --------------------------------------------------------------------------

  ghost predicate Even(s: seq<SetV>) {
    s != [] && AllSize(s, |s[0].items|)
  }

  ghost predicate QueueEven(pq: seq<seq<SetV>>) {
    forall i :: 0 <= i < |pq| ==> Even(pq[i])
  }

  lemma MergeEven(a: seq<SetV>, b: seq<SetV>)
    requires |a| == |b| && Even(a) && Even(b)
    ensures Even(MergeTuples(a, b))
  {
    MergeAllSize(a, b, |a[0].items|, |b[0].items|);
    SortDescSorts(Pair(a, b));
  }

  lemma {:induction false} DifferenceEven(pq: seq<seq<SetV>>, k: nat)
    requires pq != [] && Tuples(pq, k) && QueueEven(pq)
    ensures Even(Difference(pq, k))
    decreases |pq|
  {
    if |pq| > 1 {
      NextTuples(pq, k);
      var i := LeastIndex(pq, k);
      var rest := Without(pq, i);
      MergeEven(pq[i], rest[LeastIndex(rest, k)]);
      DifferenceEven(Next(pq, k), k);
    }
  }

  // --------------------------------------------------------------------------
  // The pop is forced
  // --------------------------------------------------------------------------

  /** No item is in the queue twice, and every tuple holds at least one. */
  ghost predicate Unrepeated(pq: seq<seq<SetV>>) {
    && (forall x :: Sum(Counts(pq, x)) <= 1)
    && forall i :: 0 <= i < |pq| ==> Filled(pq[i]) >= 1
  }

  lemma TopFilled(s: seq<SetV>, k: nat)
    requires TupleOk(s, k) && Filled(s) >= 1
    ensures s[0].items != []
  {
    FilledPrefix(s, k);
  }

  lemma CountedTwice(pq: seq<seq<SetV>>, i: nat, j: nat, x: Item)
    requires i < |pq| && j < |pq| && i != j && x in Bag(pq[i]) && x in Bag(pq[j])
    ensures Sum(Counts(pq, x)) >= 2
  {
    var rest := Without(pq, i);
    var at := if j < i then j else j - 1;
    CountsWithout(pq, i, x);
    assert rest[at] == pq[j];
    PartOfTotal(Counts(rest, x), at);
  }

  /** Any tuple that no other precedes is the one popped: a heap has no choice. */
  lemma PopIsForced(pq: seq<seq<SetV>>, k: nat, w: int, i: nat)
    requires Tuples(pq, k) && QueueOk(pq, k, w) && Unrepeated(pq) && i < |pq|
    requires forall j :: 0 <= j < |pq| ==> !StateLess(pq[j], pq[i])
    ensures i == LeastIndex(pq, k)
  {
    var least := LeastIndex(pq, k);
    LeastIsLeast(pq, k, |pq|, i);
    if i != least {
      TopFilled(pq[i], k);
      forall x | x in pq[i][0].items
        ensures x !in pq[least][0].items
      {
        InBag(pq[i], 0, x);
        if x in pq[least][0].items {
          InBag(pq[least], 0, x);
          CountedTwice(pq, i, least, x);
        }
      }
      NoTies(pq[i], pq[least]);
    }
  }

  lemma MergedUnrepeated(pq: seq<seq<SetV>>, k: nat, w: int, i: nat, j: nat)
    requires QueueOk(pq, k, w) && Unrepeated(pq) && i < |pq| && j < |pq| - 1
    ensures var rest := Without(pq, i);
            && |pq[i]| == |rest[j]|
            && forall n :: 0 <= n < |rest| ==>
                 Filled((Without(rest, j) + [MergeTuples(pq[i], rest[j])])[n]) >= 1
  {
    var rest := Without(pq, i);
    MergeFilled(pq[i], rest[j], k);
  }

  /** And it stays so from round to round. */
  lemma NextUnrepeated(pq: seq<seq<SetV>>, k: nat, w: int)
    requires |pq| > 1 && Tuples(pq, k) && QueueOk(pq, k, w) && Unrepeated(pq)
    ensures Unrepeated(Next(pq, k))
  {
    var i := LeastIndex(pq, k);
    MergedUnrepeated(pq, k, w, i, LeastIndex(Without(pq, i), k));
    forall x
      ensures Sum(Counts(Next(pq, k), x)) <= 1
    {
      NextCounts(pq, k, x);
    }
  }
}
