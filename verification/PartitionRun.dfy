/** Karmarkar-Karp as it runs: mutable sets and states, a queue of states, and the loop that
    merges the two least states until one is left. */
module PartitionRun {
  import opened BalancedSets
  import opened Differencing
  import opened KarmarkarKarp
  import opened Partitions
  import opened Sorting
  import opened StartingTuples

  class ItemSet {
    var sum: int
    var items: seq<Item>

    function View(): SetV
      reads this
    {
      SetV(sum, items)
    }

    constructor ()
      ensures View() == SetV(0, [])
    {
      sum, items := 0, [];
    }

    method Add(idx: nat, val: int)
      modifies this
      ensures View() == SetV(old(sum) + val, old(items) + [Item(idx, val)])
    {
      items := items + [Item(idx, val)];
      sum := sum + val;
    }

    method Merge(other: ItemSet)
      requires other != this
      modifies this
      ensures View() == MergeSet(old(View()), other.View())
    {
      var n := 0;
      while n < |other.items|
        invariant 0 <= n <= |other.items|
        invariant View() == MergeSet(old(View()), SetV(0, other.items[..n]))
      {
        ValsGrow(other.items, n);
        items := items + [other.items[n]];
        sum := sum + other.items[n].val;
        n := n + 1;
      }
      assert other.items[..n] == other.items;
    }
  }

  lemma ValsGrow(items: seq<Item>, n: nat)
    requires n < |items|
    ensures IntSeqs.Sum(Vals(items[..n + 1])) == IntSeqs.Sum(Vals(items[..n])) + items[n].val
    ensures items[..n + 1] == items[..n] + [items[n]]
  {
    assert Vals(items[..n + 1]) == Vals(items[..n]) + [items[n].val];
    IntSeqs.SumSnoc(Vals(items[..n]), items[n].val);
  }

  function Views(sets: seq<ItemSet>): (vs: seq<SetV>)
    reads sets
    ensures |vs| == |sets|
  {
    seq(|sets|, i requires 0 <= i < |sets| reads sets => sets[i].View())
  }

  ghost predicate Distinct(sets: seq<ItemSet>) {
    forall i, j :: 0 <= i < j < |sets| ==> sets[i] != sets[j]
  }

  // --------------------------------------------------------------------------
  // Sorting sets by value
  // --------------------------------------------------------------------------

  lemma {:induction false} InsertSkips(x: SetV, s: seq<SetV>, j: nat)
    requires j <= |s| && forall i :: 0 <= i < j ==> !Geq(x, s[i])
    requires j == |s| || Geq(x, s[j])
    ensures Insert(Geq, x, s) == s[..j] + [x] + s[j..]
  {
    if j > 0 {
      InsertSkips(x, s[1..], j - 1);
      assert s[..j] == [s[0]] + s[1..][..j - 1];
    }
  }

  method InsertSet(x: ItemSet, s: seq<ItemSet>) returns (r: seq<ItemSet>)
    requires Distinct(s) && x !in s
    ensures Views(r) == Insert(Geq, x.View(), Views(s))
    ensures Distinct(r) && forall y :: y in r <==> y == x || y in s
  {
    var j := 0;
    while j < |s| && SetLess(x.View(), s[j].View())
      invariant 0 <= j <= |s|
      invariant forall i :: 0 <= i < j ==> !Geq(x.View(), s[i].View())
    {
      j := j + 1;
    }
    r := s[..j] + [x] + s[j..];
    InsertSkips(x.View(), Views(s), j);
  }

  method SortSets(s: seq<ItemSet>) returns (r: seq<ItemSet>)
    requires Distinct(s)
    ensures Views(r) == SortDesc(Views(s))
    ensures Distinct(r) && |r| == |s| && forall y :: y in r <==> y in s
  {
    var i := |s|;
    r := [];
    while i > 0
      invariant 0 <= i <= |s|
      invariant Views(r) == SortDesc(Views(s)[i..])
      invariant Distinct(r) && |r| == |s| - i && forall y :: y in r <==> y in s[i..]
    {
      i := i - 1;
      assert s[i..] == [s[i]] + s[i + 1..];
      assert Views(s)[i..][1..] == Views(s)[i + 1..];
      InsertPermutes(Geq, s[i].View(), Views(r));
      r := InsertSet(s[i], r);
    }
    assert s[0..] == s && Views(s)[0..] == Views(s);
  }

  // --------------------------------------------------------------------------
  // States
  // --------------------------------------------------------------------------

  method NewSets(k: nat) returns (sets: seq<ItemSet>)
    ensures |sets| == k && Distinct(sets) && fresh(sets)
    ensures forall i :: 0 <= i < k ==> sets[i].View() == SetV(0, [])
  {
    sets := [];
    while |sets| < k
      invariant |sets| <= k && Distinct(sets) && fresh(sets)
      invariant forall i :: 0 <= i < |sets| ==> sets[i].View() == SetV(0, [])
    {
      var s := new ItemSet();
      sets := sets + [s];
    }
  }

  /** The seats of a new state, filled in place. */
  method Seat(items: seq<Item>, k: nat) returns (sets: seq<ItemSet>)
    requires |items| <= k
    ensures Distinct(sets) && fresh(sets) && Views(sets) == Seats(items, k)
  {
    sets := NewSets(k);
    var n := 0;
    while n < |items|
      invariant 0 <= n <= |items|
      invariant forall i :: 0 <= i < k ==> sets[i].View() == Seats(items[..n], k)[i]
    {
      sets[n].Add(items[n].idx, items[n].val);
      n := n + 1;
    }
    assert items[..n] == items;
  }

  class State {
    const k: nat
    var sets: seq<ItemSet>

    ghost predicate Valid()
      reads this
    {
      k >= 1 && |sets| == k && Distinct(sets)
    }

    function View(): (v: seq<SetV>)
      reads this, sets
      ensures |v| == |sets|
    {
      Views(sets)
    }

    constructor (items: seq<Item>, k: nat)
      requires k >= 1 && (|items| == 1 || |items| == k)
      ensures Valid() && this.k == k && fresh(sets) && View() == Tuple(items, k)
    {
      var seats := Seat(items, k);
      var sorted := SortSets(seats);
      assert forall i :: 0 <= i < |sorted| ==> sorted[i] in seats;
      TupleLength(items, k);
      this.k := k;
      sets := sorted;
    }

    /** Largest with smallest, in place; the other state's sets are only read. */
    method Merge(other: State)
      requires Valid() && other.Valid() && other.k == k && other != this && Disjoint(sets, other.sets)
      modifies this, sets
      ensures Valid() && forall x :: x in sets ==> x in old(sets)
      ensures View() == MergeTuples(old(View()), old(other.View()))
    {
      MergeEach(sets, other.sets);
      var sorted := SortSets(sets);
      sets := sorted;
    }
  }

  ghost predicate Disjoint(a: seq<ItemSet>, b: seq<ItemSet>) {
    forall i, j :: 0 <= i < |a| && 0 <= j < |b| ==> a[i] != b[j]
  }

  method MergeEach(sets: seq<ItemSet>, others: seq<ItemSet>)
    requires |sets| == |others| && Distinct(sets) && Disjoint(sets, others)
    modifies sets
    ensures Views(sets) == Pair(old(Views(sets)), old(Views(others)))
  {
    ghost var mine, theirs := Views(sets), Views(others);
    var i, k := 0, |sets|;
    while i < k
      invariant 0 <= i <= k
      invariant forall j :: 0 <= j < i ==> sets[j].View() == Pair(mine, theirs)[j]
      invariant forall j :: i <= j < k ==> sets[j].View() == mine[j]
      invariant forall j :: 0 <= j < k ==> others[j].View() == theirs[j]
    {
      assert others[k - 1 - i].View() == theirs[k - 1 - i];
      sets[i].Merge(others[k - 1 - i]);
      i := i + 1;
    }
  }

  // --------------------------------------------------------------------------
  // The queue of states
  // --------------------------------------------------------------------------

  ghost predicate Apart(a: State, b: State)
    reads a, b
  {
    a != b && Disjoint(a.sets, b.sets)
  }

  ghost predicate Queue(pq: seq<State>, k: nat)
    reads pq
  {
    && (forall i :: 0 <= i < |pq| ==> pq[i].Valid() && pq[i].k == k)
    && forall i, j :: 0 <= i < j < |pq| ==> Apart(pq[j], pq[i])
  }

  ghost predicate ApartFromAll(a: State, pq: seq<State>)
    reads a, pq
  {
    forall i :: 0 <= i < |pq| ==> Apart(a, pq[i])
  }

  lemma QueueWithout(pq: seq<State>, k: nat, i: nat)
    requires Queue(pq, k) && i < |pq|
    ensures var rest := pq[..i] + pq[i + 1..]; Queue(rest, k) && ApartFromAll(pq[i], rest)
  {
    var rest := pq[..i] + pq[i + 1..];
    forall j | 0 <= j < |rest|
      ensures rest[j] == pq[if j < i then j else j + 1]
    {
    }
  }

  lemma ViewsWithout(pq: seq<State>, vs: seq<seq<SetV>>, i: nat)
    requires |vs| == |pq| && i < |pq| && forall j :: 0 <= j < |pq| ==> pq[j].View() == vs[j]
    ensures var rest := pq[..i] + pq[i + 1..];
            && (forall j :: 0 <= j < |rest| ==> rest[j] == pq[if j < i then j else j + 1])
            && (forall j :: 0 <= j < |rest| ==> rest[j].View() == Without(vs, i)[j])
  {
    var rest := pq[..i] + pq[i + 1..];
    forall j | 0 <= j < |rest|
      ensures rest[j] == pq[if j < i then j else j + 1] && rest[j].View() == Without(vs, i)[j]
    {
      assert Without(vs, i)[j] == vs[if j < i then j else j + 1];
    }
  }

  /** The scan for the least of the queued tuples. */
  method FindLeast(vs: seq<seq<SetV>>, k: nat) returns (best: nat)
    requires vs != [] && k >= 1 && Tuples(vs, k)
    ensures best == LeastIndex(vs, k)
  {
    best := 0;
    var n := 1;
    while n < |vs|
      invariant 1 <= n <= |vs| && best < n
      invariant best == LeastUpTo(vs, k, n)
    {
      if StateLess(vs[n], vs[best]) {
        best := n;
      }
      n := n + 1;
    }
  }

  method ViewsOf(pq: seq<State>, ghost vs: seq<seq<SetV>>) returns (views: seq<seq<SetV>>)
    requires |vs| == |pq| && forall i :: 0 <= i < |pq| ==> pq[i].View() == vs[i]
    ensures views == vs
  {
    views := [];
    while |views| < |pq|
      invariant |views| <= |pq| && views == vs[..|views|]
    {
      views := views + [pq[|views|].View()];
    }
  }

  /** Takes the least state out of the queue. */
  method PopLeast(pq: seq<State>, k: nat, ghost vs: seq<seq<SetV>>) returns (least: State, rest: seq<State>)
    requires pq != [] && k >= 1 && Tuples(vs, k) && Queue(pq, k)
    requires |vs| == |pq| && forall i :: 0 <= i < |pq| ==> pq[i].View() == vs[i]
    ensures var i := LeastIndex(vs, k);
            && least == pq[i] && |rest| == |pq| - 1
            && (forall j :: 0 <= j < |rest| ==> rest[j] == pq[if j < i then j else j + 1])
            && (forall j :: 0 <= j < |rest| ==> rest[j].View() == Without(vs, i)[j])
    ensures Queue(rest, k) && ApartFromAll(least, rest)
  {
    var views := ViewsOf(pq, vs);
    var best := FindLeast(views, k);
    QueueWithout(pq, k, best);
    least, rest := pq[best], pq[..best] + pq[best + 1..];
    ViewsWithout(pq, vs, best);
  }

  /** The same, for a caller that does not mind where the other states end up. */
  method TakeLeast(pq: seq<State>, k: nat, ghost vs: seq<seq<SetV>>) returns (least: State, rest: seq<State>)
    requires pq != [] && k >= 1 && Tuples(vs, k) && Queue(pq, k)
    requires |vs| == |pq| && forall i :: 0 <= i < |pq| ==> pq[i].View() == vs[i]
    ensures least == pq[LeastIndex(vs, k)] && |rest| == |pq| - 1
    ensures forall y :: y in rest ==> y in pq
    ensures forall j :: 0 <= j < |rest| ==> rest[j].View() == Without(vs, LeastIndex(vs, k))[j]
    ensures Tuples(Without(vs, LeastIndex(vs, k)), k)
    ensures Queue(rest, k) && ApartFromAll(least, rest)
  {
    least, rest := PopLeast(pq, k, vs);
  }

  /** Merges two states apart from a queue and puts the first of them back into it. */
  method MergeBack(least: State, second: State, left: seq<State>, k: nat, ghost vs: seq<seq<SetV>>)
    returns (next: seq<State>)
    requires Queue(left, k) && ApartFromAll(least, left) && Apart(least, second)
    requires least.Valid() && second.Valid() && least.k == second.k == k
    requires |vs| == |left| && forall i :: 0 <= i < |left| ==> left[i].View() == vs[i]
    modifies least, least.sets
    ensures next == left + [least] && Queue(next, k)
    ensures var views := vs + [MergeTuples(old(least.View()), old(second.View()))];
            forall i :: 0 <= i < |next| ==> next[i].View() == views[i]
    ensures forall i, x :: 0 <= i < |next| && x in next[i].sets ==> x in old(next[i].sets)
  {
    ghost var was := least.sets;
    least.Merge(second);
    forall j | 0 <= j < |left|
      ensures Apart(least, left[j])
    {
      forall a, b | 0 <= a < |least.sets| && 0 <= b < |left[j].sets|
        ensures least.sets[a] != left[j].sets[b]
      {
        assert least.sets[a] in was;
      }
    }
    next := left + [least];
  }

  lemma AmongOthers(least: State, others: seq<State>, left: seq<State>)
    requires ApartFromAll(least, others) && forall y :: y in left ==> y in others
    ensures ApartFromAll(least, left)
  {
    forall j | 0 <= j < |left|
      ensures Apart(least, left[j])
    {
      assert left[j] in others;
    }
  }

  /** The second half of a round: the next least state is popped and merged into the first. */
  method MergeNext(least: State, others: seq<State>, k: nat, ghost rest: seq<seq<SetV>>, ghost views: seq<seq<SetV>>)
    returns (next: seq<State>)
    requires others != [] && k >= 1 && Tuples(rest, k) && Queue(others, k)
    requires |rest| == |others| && forall i :: 0 <= i < |others| ==> others[i].View() == rest[i]
    requires least.Valid() && least.k == k && ApartFromAll(least, others)
    requires var j := LeastIndex(rest, k); views == Without(rest, j) + [MergeTuples(least.View(), rest[j])]
    modifies least, least.sets
    ensures |next| == |others| == |views| && Queue(next, k)
    ensures forall i :: 0 <= i < |next| ==> next[i].View() == views[i]
    ensures forall i :: 0 <= i < |next| ==> next[i] == least || next[i] in others
    ensures forall i, x :: 0 <= i < |next| && x in next[i].sets ==> x in old(next[i].sets)
  {
    ghost var j := LeastIndex(rest, k);
    var second, left := TakeLeast(others, k, rest);
    AmongOthers(least, others, left);
    assert Apart(least, second) && second.View() == rest[j];
    next := MergeBack(least, second, left, k, Without(rest, j));
  }

  /** One round of the loop: the two least states leave the queue and their merge enters it. */
  method MergeTwo(pq: seq<State>, k: nat, ghost vs: seq<seq<SetV>>) returns (next: seq<State>)
    requires |pq| > 1 && k >= 1 && Tuples(vs, k) && Queue(pq, k)
    requires |vs| == |pq| && forall i :: 0 <= i < |pq| ==> pq[i].View() == vs[i]
    modifies pq[LeastIndex(vs, k)], pq[LeastIndex(vs, k)].sets
    ensures |next| == |pq| - 1 && Queue(next, k)
    ensures forall i :: 0 <= i < |next| ==> next[i].View() == Next(vs, k)[i]
    ensures forall i :: 0 <= i < |next| ==> next[i] in pq
    ensures forall i, x :: 0 <= i < |next| && x in next[i].sets ==> x in old(next[i].sets)
  {
    ghost var rest := Without(vs, LeastIndex(vs, k));
    var least, others := TakeLeast(pq, k, vs);
    next := MergeNext(least, others, k, rest, Next(vs, k));
  }

  // --------------------------------------------------------------------------
  // The run
  // --------------------------------------------------------------------------

  /** A new state that may join the queue. */
  method NewState(pq: seq<State>, items: seq<Item>, k: nat) returns (s: State)
    requires k >= 1 && (|items| == 1 || |items| == k) && Queue(pq, k)
    ensures fresh(s) && fresh(s.sets) && s.View() == Tuple(items, k)
    ensures Queue(pq + [s], k)
  {
    s := new State(items, k);
  }

  lemma {:induction false} SinglesCount(items: seq<Item>, k: nat)
    ensures |Singles(items, k)| == |items|
  {
    if items != [] {
      SinglesCount(items[..|items| - 1], k);
    }
  }

  lemma {:induction false} SingleAt(items: seq<Item>, k: nat, n: nat)
    requires n < |items|
    ensures |Singles(items, k)| == |items| && Singles(items, k)[n] == Tuple([items[n]], k)
    decreases |items|
  {
    var last := |items| - 1;
    assert items[last..] == [items[last]];
    if last > 0 {
      SingleAt(items[..last], k, if n < last then n else 0);
    }
  }

  /** Where the loop stands after n turns. */
  ghost function OffsetAfter(n: nat, k: nat): nat {
    if n == 0 then 0 else OffsetAfter(n - 1, k) + k
  }

  lemma {:induction false} BlocksCount(items: seq<Item>, k: nat, all: nat)
    requires k >= 1 && |items| == OffsetAfter(all, k)
    ensures |Blocks(items, k)| == all
    decreases all
  {
    if all > 0 {
      BlocksCount(items[..|items| - k], k, all - 1);
    } else {
      NoBlocks(items, k);
    }
  }

  lemma {:induction false} BlockAt(items: seq<Item>, k: nat, b: nat, all: nat)
    requires k >= 1 && |items| == OffsetAfter(all, k) && b < all == |Blocks(items, k)|
    ensures OffsetAfter(b, k) + k <= |items|
    ensures Blocks(items, k)[b] == Tuple(items[OffsetAfter(b, k)..OffsetAfter(b, k) + k], k)
    decreases all
  {
    var o, cut := OffsetAfter(b, k), |items| - k;
    if b < all - 1 {
      BlockAt(items[..cut], k, b, all - 1);
      assert items[..cut][o..o + k] == items[o..o + k];
    } else {
      assert items[cut..] == items[o..o + k];
    }
  }

  lemma {:induction false} OffsetIs(n: nat, k: nat)
    ensures OffsetAfter(n, k) == n * k
  {
    if n > 0 {
      OffsetIs(n - 1, k);
      assert n * k == (n - 1) * k + k;
    }
  }

  /** One turn of the loop, as long as items are left. */
  lemma BlockTurn(items: seq<Item>, k: nat, n: nat, all: nat)
    requires k >= 1 && |items| == OffsetAfter(all, k) && n <= all
    ensures |Blocks(items, k)| == all
    ensures OffsetAfter(n, k) < |items| <==> n < all
    ensures n < all ==> OffsetAfter(n, k) + k <= |items|
    ensures n < all ==> Tuple(items[OffsetAfter(n, k)..OffsetAfter(n, k) + k], k) == Blocks(items, k)[n]
  {
    BlocksCount(items, k, all);
    if n < all {
      BlockAt(items, k, n, all);
    }
  }

  /** The state of the next run of k items. */
  method NextBlock(pq: seq<State>, items: seq<Item>, offset: nat, k: nat, ghost all: nat) returns (s: State)
    requires k >= 1 && offset == OffsetAfter(|pq|, k) < |items| == OffsetAfter(all, k) && |pq| <= all && Queue(pq, k)
    requires |pq| <= |Blocks(items, k)| && forall i :: 0 <= i < |pq| ==> pq[i].View() == Blocks(items, k)[i]
    ensures fresh(s) && fresh(s.sets) && Queue(pq + [s], k)
    ensures |pq| < all == |Blocks(items, k)|
    ensures forall i :: 0 <= i <= |pq| ==> (pq + [s])[i].View() == Blocks(items, k)[i]
    ensures offset + k <= |items|
  {
    BlockTurn(items, k, |pq|, all);
    s := NewState(pq, items[offset..offset + k], k);
  }

  method StartBlocks(items: seq<Item>, k: nat) returns (pq: seq<State>)
    requires k >= 1 && |items| % k == 0
    ensures Queue(pq, k) && forall s :: s in pq ==> fresh(s) && fresh(s.sets)
    ensures |pq| == |Blocks(items, k)|
    ensures forall i :: 0 <= i < |pq| ==> pq[i].View() == Blocks(items, k)[i]
  {
    pq := [];
    var offset := 0;
    ghost var all := WholeBlocks(|items|, k);
    OffsetIs(all, k);
    BlockTurn(items, k, 0, all);
    ghost var views := Blocks(items, k);
    while offset < |items|
      invariant |pq| <= |views| == all && offset == OffsetAfter(|pq|, k) <= |items| == OffsetAfter(all, k)
      invariant Queue(pq, k) && forall s :: s in pq ==> fresh(s) && fresh(s.sets)
      invariant forall i :: 0 <= i < |pq| ==> pq[i].View() == views[i]
      decreases |items| - offset
    {
      var s := NextBlock(pq, items, offset, k, all);
      pq := pq + [s];
      offset := offset + k;
    }
    BlockTurn(items, k, |pq|, all);
  }

  /** The state of the next item. */
  method NextSingle(pq: seq<State>, items: seq<Item>, k: nat) returns (s: State)
    requires k >= 1 && |pq| < |items| == |Singles(items, k)| && Queue(pq, k)
    requires forall i :: 0 <= i < |pq| ==> pq[i].View() == Singles(items, k)[i]
    ensures fresh(s) && fresh(s.sets) && Queue(pq + [s], k)
    ensures forall i :: 0 <= i <= |pq| ==> (pq + [s])[i].View() == Singles(items, k)[i]
  {
    SingleAt(items, k, |pq|);
    s := NewState(pq, [items[|pq|]], k);
  }

  method StartSingles(items: seq<Item>, k: nat) returns (pq: seq<State>)
    requires k >= 1
    ensures Queue(pq, k) && forall s :: s in pq ==> fresh(s) && fresh(s.sets)
    ensures |pq| == |Singles(items, k)|
    ensures forall i :: 0 <= i < |pq| ==> pq[i].View() == Singles(items, k)[i]
  {
    pq := [];
    ghost var views := Singles(items, k);
    SinglesCount(items, k);
    while |pq| < |items|
      invariant |pq| <= |items| == |views|
      invariant Queue(pq, k) && forall s :: s in pq ==> fresh(s) && fresh(s.sets)
      invariant forall i :: 0 <= i < |pq| ==> pq[i].View() == views[i]
    {
      var s := NextSingle(pq, items, k);
      pq := pq + [s];
    }
  }

  method GetPartition(items: seq<Item>) returns (part: seq<nat>)
    ensures part == Idxs(items)
  {
    part := [];
    while |part| < |items|
      invariant |part| <= |items| && part == Idxs(items)[..|part|]
    {
      part := part + [items[|part|].idx];
    }
  }

  method GetPartitions(sets: seq<ItemSet>) returns (parts: seq<seq<nat>>)
    ensures parts == Parts(Views(sets))
  {
    parts := [];
    while |parts| < |sets|
      invariant |parts| <= |sets| && parts == Parts(Views(sets))[..|parts|]
    {
      var part := GetPartition(sets[|parts|].items);
      assert part == Parts(Views(sets))[|parts|];
      parts := parts + [part];
    }
  }

  method CheckEven(parts: seq<seq<nat>>, k: nat, n: nat) returns (even: bool)
    ensures even == EvenParts(parts, k, n)
  {
    var i := 0;
    while i < |parts|
      invariant 0 <= i <= |parts|
      invariant forall j :: 0 <= j < i ==> |parts[j]| * k == n
    {
      if |parts[i]| * k != n {
        return false;
      }
      i := i + 1;
    }
    return true;
  }

  /** The states of a queue and their sets are among the given objects. */
  ghost predicate Within(pq: seq<State>, states: set<State>, cells: set<ItemSet>)
    reads pq
  {
    forall i :: 0 <= i < |pq| ==> pq[i] in states && forall x :: x in pq[i].sets ==> x in cells
  }

  method Round(pq: seq<State>, k: nat, ghost vs: seq<seq<SetV>>, ghost states: set<State>, ghost cells: set<ItemSet>)
    returns (next: seq<State>)
    requires |pq| > 1 && k >= 1 && Tuples(vs, k) && Queue(pq, k) && Within(pq, states, cells)
    requires |vs| == |pq| && forall i :: 0 <= i < |pq| ==> pq[i].View() == vs[i]
    modifies states, cells
    ensures |next| == |pq| - 1 && Queue(next, k) && Within(next, states, cells)
    ensures forall i :: 0 <= i < |next| ==> next[i].View() == Next(vs, k)[i]
  {
    ghost var i := LeastIndex(vs, k);
    assert pq[i] in states && forall x :: x in pq[i].sets ==> x in cells;
    next := MergeTwo(pq, k, vs);
  }

  /** Merges the queue down to one state. */
  method MergeAll(start: seq<State>, k: nat, ghost vs: seq<seq<SetV>>, ghost states: set<State>,
                  ghost cells: set<ItemSet>)
    returns (final: State)
    requires start != [] && k >= 1 && Tuples(vs, k) && Queue(start, k) && Within(start, states, cells)
    requires |vs| == |start| && forall i :: 0 <= i < |start| ==> start[i].View() == vs[i]
    modifies states, cells
    ensures final.View() == Difference(vs, k)
  {
    var pq := start;
    ghost var views := vs;
    while |pq| > 1
      invariant pq != [] && Tuples(views, k) && Queue(pq, k) && Within(pq, states, cells)
      invariant |views| == |pq| && forall i :: 0 <= i < |pq| ==> pq[i].View() == views[i]
      invariant Difference(views, k) == Difference(vs, k)
      decreases |pq|
    {
      pq := Round(pq, k, views, states, cells);
      NextTuples(views, k);
      views := Next(views, k);
    }
    final := pq[0];
  }

  /** The queue of starting states, all of them new objects. */
  method StartQueue(items: seq<Item>, k: nat, equal: bool) returns (pq: seq<State>)
    requires Runs(|items|, k, equal)
    ensures Queue(pq, k) && forall s :: s in pq ==> fresh(s) && fresh(s.sets)
    ensures |pq| == |StartOf(items, k, equal)|
    ensures forall i :: 0 <= i < |pq| ==> pq[i].View() == StartOf(items, k, equal)[i]
  {
    if equal {
      pq := StartBlocks(items, k);
    } else {
      pq := StartSingles(items, k);
    }
  }

  /** Runs a queue of new states down and reads the parts off. */
  method RunDown(pq: seq<State>, k: nat, ghost vs: seq<seq<SetV>>) returns (parts: seq<seq<nat>>)
    requires pq != [] && k >= 1 && Tuples(vs, k) && Queue(pq, k)
    requires |vs| == |pq| && forall i :: 0 <= i < |pq| ==> pq[i].View() == vs[i]
    modifies pq, set s, x | s in pq && x in s.sets :: x
    ensures parts == Parts(Difference(vs, k))
  {
    ghost var states := set s | s in pq;
    ghost var cells := set s, x | s in pq && x in s.sets :: x;
    var final := MergeAll(pq, k, vs, states, cells);
    parts := GetPartitions(final.sets);
  }

  /** Builds the queue and runs it down. */
  method Solve(vs: seq<int>, k: nat, equal: bool) returns (parts: seq<seq<nat>>)
    requires Runs(|vs|, k, equal)
    ensures parts == Parts(Final(vs, k, equal))
  {
    var items := SortItems(ItemsOf(vs));
    SortItemsSorts(ItemsOf(vs));
    StartIs(vs, k, equal);
    var pq := StartQueue(items, k, equal);
    assert forall s, x :: s in pq && x in s.sets ==> fresh(x);
    parts := RunDown(pq, k, Start(vs, k, equal));
  }

  /** `karmarkar_karp` itself. */
  method Run(vs: seq<int>, k: int, equal: bool) returns (r: Outcome)
    ensures r == Partition(vs, k, equal)
  {
    if equal {
      if k == 0 {
        return ZeroDivisionError;
      }
      if |vs| % k != 0 {
        return AssertionError;
      }
    }
    if |vs| == 0 || k < 1 {
      return IndexError;
    }
    var parts := Solve(vs, k, equal);
    if equal {
      var even := CheckEven(parts, k, |vs|);
      if !even {
        return AssertionError;
      }
    }
    return Ok(parts);
  }
}
