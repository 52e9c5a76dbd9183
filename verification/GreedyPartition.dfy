/** Greedy assignment: each item in turn to the part with the smallest sum, with a bias that
    makes the number of items count first when the parts are to have equal sizes. */
module GreedyPartition {
  import opened IntSeqs
  import opened KarmarkarKarp
  import opened Lists
  import opened Partitions
  import PartitionRun

  /** The parts and their running sums after some items. */
  datatype Fill = Fill(parts: seq<seq<nat>>, sums: seq<int>)

  ghost predicate Shaped(f: Fill, k: nat) {
    |f.parts| == k && |f.sums| == k
  }

  /** The first position of the least of the first n sums. */
  function LeastSum(sums: seq<int>, n: nat): (p: nat)
    requires 1 <= n <= |sums|
    ensures p < n && forall q :: 0 <= q < n ==> sums[p] <= sums[q]
    ensures forall q :: 0 <= q < p ==> sums[q] > sums[p]
  {
    if n == 1 then 0
    else
      var p := LeastSum(sums, n - 1);
      if sums[n - 1] < sums[p] then n - 1 else p
  }

  function Give(f: Fill, k: nat, i: nat, v: int): (g: Fill)
    requires k >= 1 && Shaped(f, k)
    ensures Shaped(g, k)
  {
    var p := LeastSum(f.sums, k);
    Fill(f.parts[p := f.parts[p] + [i]], f.sums[p := f.sums[p] + v])
  }

  function NoItems(k: nat): (parts: seq<seq<nat>>)
    ensures |parts| == k
  {
    seq(k, _ => [])
  }

  /** The first n items given out. */
  function GivenOut(vs: seq<int>, k: nat, bias: int, n: nat): (f: Fill)
    requires k >= 1 && n <= |vs|
    ensures Shaped(f, k)
  {
    if n == 0 then Fill(NoItems(k), seq(k, _ => 0))
    else Give(GivenOut(vs, k, bias, n - 1), k, n - 1, vs[n - 1] + bias)
  }

  function Bias(vs: seq<int>, equal: bool): int {
    if equal then Sum(vs) + 1 else 0
  }

  function Greedy(vs: seq<int>, k: int, equal: bool): Outcome {
    if k < 1 then (if vs == [] then Ok([]) else TypeError)
    else
      var parts := GivenOut(vs, k, Bias(vs, equal), |vs|).parts;
      if equal && !EvenParts(parts, k, |vs|) then AssertionError else Ok(parts)
  }

  // --------------------------------------------------------------------------
  // Every item is given out once
  // --------------------------------------------------------------------------

  lemma MoveLast(a: multiset<nat>, b: multiset<nat>, c: multiset<nat>)
    ensures (a + b) + c == (a + c) + b
  {
  }

  lemma {:induction false} FlattenGive(parts: seq<seq<nat>>, p: nat, i: nat)
    requires p < |parts|
    ensures multiset(Flatten(parts[p := parts[p] + [i]])) == multiset(Flatten(parts)) + multiset{i}
  {
    var q, rest := parts[p := parts[p] + [i]], parts[1..];
    if p == 0 {
      assert q[1..] == rest;
      calc {
        multiset(Flatten(q));
        multiset(parts[0] + [i]) + multiset(Flatten(rest));
        (multiset(parts[0]) + multiset{i}) + multiset(Flatten(rest));
        { MoveLast(multiset(parts[0]), multiset{i}, multiset(Flatten(rest))); }
        multiset(Flatten(parts)) + multiset{i};
      }
    } else {
      var tail := rest[p - 1 := parts[p] + [i]];
      assert q[1..] == tail;
      calc {
        multiset(Flatten(q));
        multiset(parts[0]) + multiset(Flatten(tail));
        { FlattenGive(rest, p - 1, i); }
        multiset(parts[0]) + (multiset(Flatten(rest)) + multiset{i});
        multiset(Flatten(parts)) + multiset{i};
      }
    }
  }

  lemma {:induction false} FlattenEmpty(k: nat)
    ensures Flatten(NoItems(k)) == []
  {
    if k > 0 {
      FlattenEmpty(k - 1);
      assert NoItems(k)[1..] == NoItems(k - 1);
    }
  }

  lemma OnceMore(parts: seq<seq<nat>>, p: nat, n: nat)
    requires p < |parts| && ExactlyOnce(parts, n)
    ensures ExactlyOnce(parts[p := parts[p] + [n]], n + 1)
  {
    FlattenGive(parts, p, n);
    assert Range(n + 1) == Range(n) + [n];
  }

  lemma {:induction false} GivenOnce(vs: seq<int>, k: nat, bias: int, n: nat)
    requires k >= 1 && n <= |vs|
    ensures ExactlyOnce(GivenOut(vs, k, bias, n).parts, n)
  {
    if n == 0 {
      FlattenEmpty(k);
      assert Range(0) == [];
    } else {
      GivenOnce(vs, k, bias, n - 1);
      var f := GivenOut(vs, k, bias, n - 1);
      OnceMore(f.parts, LeastSum(f.sums, k), n - 1);
    }
  }

  // --------------------------------------------------------------------------
  // What the running sums are
  // --------------------------------------------------------------------------

  lemma LoadGrows(vs: seq<int>, part: seq<nat>, x: nat)
    requires Inside(part, |vs|) && x < |vs|
    ensures Inside(part + [x], |vs|) && Load(vs, part + [x]) == Load(vs, part) + vs[x]
  {
    SumAppend(At(vs, part), At(vs, part + [x]));
  }

  lemma BiasStep(bias: int, m: int)
    ensures bias * (m + 1) == bias * m + bias
  {
  }

  /** A running sum is the load of its part plus one bias for each of its items. */
  lemma {:induction false} SumIsLoad(vs: seq<int>, k: nat, bias: int, n: nat, p: nat)
    requires k >= 1 && n <= |vs| && p < k
    ensures var f := GivenOut(vs, k, bias, n);
            Inside(f.parts[p], |vs|) && f.sums[p] == Load(vs, f.parts[p]) + bias * |f.parts[p]|
  {
    if n > 0 {
      SumIsLoad(vs, k, bias, n - 1, p);
      var f := GivenOut(vs, k, bias, n - 1);
      if p == LeastSum(f.sums, k) {
        LoadGrows(vs, f.parts[p], n - 1);
        BiasStep(bias, |f.parts[p]|);
      }
    }
  }

  // --------------------------------------------------------------------------
  // Without the bias: sums stay close
  // --------------------------------------------------------------------------

  lemma {:induction false} SumsClose(vs: seq<int>, k: nat, n: nat, w: int, p: nat, q: nat)
    requires k >= 1 && n <= |vs| && p < k && q < k && w >= 0
    requires forall i :: 0 <= i < |vs| ==> 0 <= vs[i] <= w
    ensures var f := GivenOut(vs, k, 0, n); f.sums[p] - f.sums[q] <= w
  {
    if n > 0 {
      var f := GivenOut(vs, k, 0, n - 1);
      SumsClose(vs, k, n - 1, w, p, q);
      assert 0 <= vs[n - 1] <= w;
    }
  }

  lemma GivenLoadsClose(vs: seq<int>, k: nat, w: int, p: nat, q: nat)
    requires k >= 1 && p < k && q < k && w >= 0
    requires forall i :: 0 <= i < |vs| ==> 0 <= vs[i] <= w
    ensures var parts := GivenOut(vs, k, 0, |vs|).parts;
            ExactlyOnce(parts, |vs|) && Loads(vs, parts)[p] - Loads(vs, parts)[q] <= w
  {
    GivenOnce(vs, k, 0, |vs|);
    SumIsLoad(vs, k, 0, |vs|, p);
    SumIsLoad(vs, k, 0, |vs|, q);
    SumsClose(vs, k, |vs|, w, p, q);
  }

  lemma GivenNearAverage(vs: seq<int>, k: nat, w: int, p: nat)
    requires k >= 1 && p < k && w >= 0
    requires forall i :: 0 <= i < |vs| ==> 0 <= vs[i] <= w
    ensures var parts := GivenOut(vs, k, 0, |vs|).parts;
            && ExactlyOnce(parts, |vs|)
            && (forall q :: 0 <= q < k ==> Loads(vs, parts)[p] - Loads(vs, parts)[q] <= w)
            && k * Loads(vs, parts)[p] <= Sum(vs) + (k - 1) * w
  {
    var parts := GivenOut(vs, k, 0, |vs|).parts;
    GivenOnce(vs, k, 0, |vs|);
    var loads := Loads(vs, parts);
    forall q: nat | q < k
      ensures loads[p] - loads[q] <= w
    {
      GivenLoadsClose(vs, k, w, p, q);
    }
    SpreadBound(loads, w, p);
    LoadsTotal(vs, parts);
  }

  /** Unbiased greedy: no two loads differ by more than the largest item, so k times any load is
      at most the total plus (k - 1) times that item. */
  lemma GreedyNearAverage(vs: seq<int>, k: nat, w: int, p: nat)
    requires k >= 1 && p < k && w >= 0
    requires forall i :: 0 <= i < |vs| ==> 0 <= vs[i] <= w
    ensures var r := Greedy(vs, k, false);
            && r.Ok? && |r.parts| == k && ExactlyOnce(r.parts, |vs|)
            && (forall q :: 0 <= q < k ==> Loads(vs, r.parts)[p] - Loads(vs, r.parts)[q] <= w)
            && k * Loads(vs, r.parts)[p] <= Sum(vs) + (k - 1) * w
  {
    GivenNearAverage(vs, k, w, p);
    assert Greedy(vs, k, false) == Ok(GivenOut(vs, k, 0, |vs|).parts);
  }

  /** Unbiased greedy against the best possible: if every load of some assignment stays within
      most, k times any greedy load is at most (2k - 1) times most. */
  lemma GreedyNearOptimal(vs: seq<int>, k: nat, assign: seq<nat>, most: int, p: nat)
    requires k >= 1 && p < k && NonNegative(vs)
    requires |assign| == |vs| && forall i :: 0 <= i < |vs| ==> assign[i] < k
    requires forall q: nat :: q < k ==> AssignedLoad(vs, assign, q) <= most
    ensures var r := Greedy(vs, k, false);
            && r.Ok? && |r.parts| == k && ExactlyOnce(r.parts, |vs|)
            && k * Loads(vs, r.parts)[p] <= (2 * k - 1) * most
  {
    EveryAssignment(vs, assign, k, most);
    AssignedItem(vs, assign, |vs|, 0);
    GreedyNearAverage(vs, k, most, p);
    AgainstAssignment(k, Loads(vs, Greedy(vs, k, false).parts)[p], Sum(vs), most);
  }

  // --------------------------------------------------------------------------
  // With the bias: sizes stay within one of each other
  // --------------------------------------------------------------------------

  lemma HeadWithin(vs: seq<int>, n: nat)
    requires n <= |vs| && NonNegative(vs)
    ensures Sum(vs[..n]) <= Sum(vs)
  {
    assert vs == vs[..n] + vs[n..];
    SumConcat(vs[..n], vs[n..]);
    SumNonNegative(vs[n..]);
  }

  lemma LoadWithin(vs: seq<int>, parts: seq<seq<nat>>, n: nat, p: nat)
    requires n <= |vs| && NonNegative(vs) && p < |parts| && ExactlyOnce(parts, n)
    ensures Inside(parts[p], |vs|) && 0 <= Load(vs, parts[p]) <= Sum(vs)
  {
    var head := vs[..n];
    var loads := Loads(head, parts);
    forall q: nat | q < |parts|
      ensures loads[q] >= 0
    {
      SumNonNegative(At(head, parts[q]));
    }
    PartOfTotal(loads, p);
    LoadsTotal(head, parts);
    assert At(vs, parts[p]) == At(head, parts[p]);
    HeadWithin(vs, n);
  }

  lemma FewestByBias(a: nat, b: nat, x: int, y: int, bias: int)
    requires 0 <= x && 0 <= y < bias && x + bias * a <= y + bias * b
    ensures a <= b
  {
    if a > b {
      ProductMonotone(bias, b + 1, a);
      BiasStep(bias, b);
    }
  }

  /** The part with the least biased sum has the fewest items. */
  lemma PicksFewest(vs: seq<int>, k: nat, n: nat, q: nat)
    requires k >= 1 && n <= |vs| && NonNegative(vs) && q < k
    ensures var f := GivenOut(vs, k, Bias(vs, true), n);
            |f.parts[LeastSum(f.sums, k)]| <= |f.parts[q]|
  {
    var bias := Bias(vs, true);
    var f := GivenOut(vs, k, bias, n);
    var p := LeastSum(f.sums, k);
    GivenOnce(vs, k, bias, n);
    LoadWithin(vs, f.parts, n, p);
    LoadWithin(vs, f.parts, n, q);
    SumIsLoad(vs, k, bias, n, p);
    SumIsLoad(vs, k, bias, n, q);
    FewestByBias(|f.parts[p]|, |f.parts[q]|, Load(vs, f.parts[p]), Load(vs, f.parts[q]), bias);
  }

  lemma {:induction false} SizesClose(vs: seq<int>, k: nat, n: nat, p: nat, q: nat)
    requires k >= 1 && n <= |vs| && NonNegative(vs) && p < k && q < k
    ensures var f := GivenOut(vs, k, Bias(vs, true), n); |f.parts[p]| <= |f.parts[q]| + 1
  {
    if n > 0 {
      SizesClose(vs, k, n - 1, p, q);
      PicksFewest(vs, k, n - 1, q);
    }
  }

  /** Sizes within one of each other that add up to k * m are all m. */
  lemma CloseSizesEven(sizes: seq<int>, m: int, p: nat)
    requires p < |sizes| && Sum(sizes) == |sizes| * m
    requires forall i, j :: 0 <= i < |sizes| && 0 <= j < |sizes| ==> sizes[i] <= sizes[j] + 1
    ensures sizes[p] == m
  {
    SumSplit(sizes, p);
    var before, after := sizes[..p], sizes[p + 1..];
    Regroup(p, |sizes| - 1 - p, m);
    ProductStep(|sizes|, m);
    if sizes[p] > m {
      SumAtLeast(before, m);
      SumAtLeast(after, m);
    } else if sizes[p] < m {
      SumAtMost(before, m);
      SumAtMost(after, m);
    }
  }

  /** Greedy succeeds exactly when there is a part for the items and, for equal sizes, k divides
      their number; the final assertion never fires on those inputs. */
  lemma GreedySucceeds(vs: seq<int>, k: int, equal: bool)
    requires NonNegative(vs)
    ensures Greedy(vs, k, equal).Ok? <==>
            (k >= 1 || vs == []) && (equal && k >= 1 ==> |vs| % k == 0)
  {
    if k >= 1 && equal {
      var parts := GivenOut(vs, k, Bias(vs, true), |vs|).parts;
      if |vs| % k == 0 {
        var m := WholeBlocks(|vs|, k);
        GivenOnce(vs, k, Bias(vs, true), |vs|);
        SizesTotal(parts);
        assert |multiset(Flatten(parts))| == |multiset(Range(|vs|))|;
        forall p: nat | p < k
          ensures |parts[p]| * k == |vs|
        {
          forall i, j | 0 <= i < k && 0 <= j < k
            ensures Sizes(parts)[i] <= Sizes(parts)[j] + 1
          {
            SizesClose(vs, k, |vs|, i, j);
          }
          CloseSizesEven(Sizes(parts), m, p);
        }
      } else if EvenParts(parts, k, |vs|) {
        assert |vs| == |parts[0]| * k;
        NoRemainder(|parts[0]|, k);
      }
    }
  }

  // --------------------------------------------------------------------------
  // The run
  // --------------------------------------------------------------------------

  /** The scan for the least sum. */
  method FindLeast(sums: array<int>) returns (least: nat)
    requires sums.Length >= 1
    ensures least == LeastSum(sums[..], sums.Length)
  {
    least := 0;
    var j := 1;
    while j < sums.Length
      invariant 1 <= j <= sums.Length
      invariant least == LeastSum(sums[..], j)
    {
      if sums[j] < sums[least] {
        least := j;
      }
      j := j + 1;
    }
  }

  /** One item goes to the part with the least sum, in place. */
  method GiveOne(parts: array<seq<nat>>, sums: array<int>, i: nat, v: int)
    requires parts.Length == sums.Length >= 1
    modifies parts, sums
    ensures Fill(parts[..], sums[..]) == Give(old(Fill(parts[..], sums[..])), parts.Length, i, v)
  {
    var least := FindLeast(sums);
    parts[least] := parts[least] + [i];
    sums[least] := sums[least] + v;
  }

  lemma GivenNext(vs: seq<int>, k: nat, bias: int, n: nat)
    requires k >= 1 && n < |vs|
    ensures GivenOut(vs, k, bias, n + 1) == Give(GivenOut(vs, k, bias, n), k, n, vs[n] + bias)
  {
  }

  /** `greedy_partition` itself. */
  method Run(vs: seq<int>, k: int, equal: bool) returns (r: Outcome)
    ensures r == Greedy(vs, k, equal)
  {
    var bias := if equal then Sum(vs) + 1 else 0;
    if k < 1 {
      return if vs == [] then Ok([]) else TypeError;
    }
    var parts := new seq<nat>[k](_ => []);
    var sums := new int[k](_ => 0);
    assert parts[..] == NoItems(k) && sums[..] == seq(k, _ => 0);
    var i := 0;
    while i < |vs|
      invariant 0 <= i <= |vs|
      invariant Fill(parts[..], sums[..]) == GivenOut(vs, k, bias, i)
    {
      GivenNext(vs, k, bias, i);
      GiveOne(parts, sums, i, vs[i] + bias);
      i := i + 1;
    }
    if equal {
      var even := PartitionRun.CheckEven(parts[..], k, |vs|);
      if !even {
        return AssertionError;
      }
    }
    return Ok(parts[..]);
  }
}
