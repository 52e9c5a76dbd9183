/** Partitions of list positions into parts, their loads, and how loads relate to the total and
    to the loads of any other assignment. */
module Partitions {
  import opened IntSeqs
  import opened Lists

  /** What a partitioner does: return its parts, or stop with the named exception. */
  datatype Outcome = Ok(parts: seq<seq<nat>>) | AssertionError | IndexError | TypeError | ZeroDivisionError

  function Range(n: nat): (r: seq<nat>)
    ensures |r| == n
  {
    seq(n, i requires 0 <= i < n => i)
  }

  /** Every position below n is in exactly one part, once. */
  ghost predicate ExactlyOnce(parts: seq<seq<nat>>, n: nat) {
    multiset(Flatten(parts)) == multiset(Range(n))
  }

  predicate Inside(part: seq<nat>, n: nat) {
    forall j :: 0 <= j < |part| ==> part[j] < n
  }

  lemma PartInside(parts: seq<seq<nat>>, n: nat, i: nat)
    requires ExactlyOnce(parts, n) && i < |parts|
    ensures Inside(parts[i], n)
  {
    forall j | 0 <= j < |parts[i]|
      ensures parts[i][j] < n
    {
      InFlatten(parts, i, parts[i][j]);
      assert parts[i][j] in multiset(Flatten(parts));
      assert parts[i][j] in Range(n);
    }
  }

  function At(vs: seq<int>, part: seq<nat>): (xs: seq<int>)
    requires Inside(part, |vs|)
    ensures |xs| == |part|
  {
    seq(|part|, j requires 0 <= j < |part| => vs[part[j]])
  }

  /** The sum of the values a part holds. */
  function Load(vs: seq<int>, part: seq<nat>): int
    requires Inside(part, |vs|)
  {
    Sum(At(vs, part))
  }

  ghost function Loads(vs: seq<int>, parts: seq<seq<nat>>): (loads: seq<int>)
    requires ExactlyOnce(parts, |vs|)
    ensures |loads| == |parts|
    ensures forall i :: 0 <= i < |parts| ==> Inside(parts[i], |vs|) && loads[i] == Load(vs, parts[i])
  {
    forall i: nat | i < |parts|
      ensures Inside(parts[i], |vs|)
    {
      PartInside(parts, |vs|, i);
    }
    seq(|parts|, i requires 0 <= i < |parts| => Load(vs, parts[i]))
  }

  lemma RemoveAt<T>(a: seq<T>, i: nat)
    requires i < |a|
    ensures multiset(a[..i] + a[i + 1..]) == multiset(a) - multiset{a[i]}
  {
    assert a == a[..i] + [a[i]] + a[i + 1..];
  }

  /** Sequences with the same elements: dropping the last of one matches dropping some i of the other. */
  lemma MatchLast<T>(a: seq<T>, b: seq<T>) returns (i: nat)
    requires multiset(a) == multiset(b) && a != []
    ensures i < |b| && b[i] == a[|a| - 1]
    ensures multiset(a[..|a| - 1]) == multiset(b[..i] + b[i + 1..])
  {
    var last := |a| - 1;
    assert a[last] in multiset(b);
    i :| 0 <= i < |b| && b[i] == a[last];
    RemoveAt(a, last);
    RemoveAt(b, i);
    assert a[..last] + a[last + 1..] == a[..last];
  }

  lemma {:induction false} PermutedLoad(vs: seq<int>, a: seq<nat>, b: seq<nat>)
    requires Inside(a, |vs|) && Inside(b, |vs|) && multiset(a) == multiset(b)
    ensures Load(vs, a) == Load(vs, b)
    decreases |a|
  {
    assert |a| == |multiset(a)| == |multiset(b)| == |b|;
    if a != [] {
      var init := a[..|a| - 1];
      var i := MatchLast(a, b);
      LoadWithout(vs, b, i);
      PermutedLoad(vs, init, b[..i] + b[i + 1..]);
      SumAppend(At(vs, init), At(vs, a));
    }
  }

  lemma LoadWithout(vs: seq<int>, b: seq<nat>, i: nat)
    requires Inside(b, |vs|) && i < |b|
    ensures Inside(b[..i] + b[i + 1..], |vs|)
    ensures Load(vs, b) == Load(vs, b[..i] + b[i + 1..]) + vs[b[i]]
  {
    var c := b[..i] + b[i + 1..];
    assert forall j :: 0 <= j < |c| ==> c[j] == if j < i then b[j] else b[j + 1];
    SumRemove(At(vs, b), At(vs, c), i);
  }

  lemma LoadConcat(vs: seq<int>, a: seq<nat>, b: seq<nat>)
    requires Inside(a, |vs|) && Inside(b, |vs|)
    ensures Inside(a + b, |vs|) && Load(vs, a + b) == Load(vs, a) + Load(vs, b)
  {
    assert At(vs, a + b) == At(vs, a) + At(vs, b);
    SumConcat(At(vs, a), At(vs, b));
  }

  lemma {:induction false} FlattenLoad(vs: seq<int>, parts: seq<seq<nat>>, loads: seq<int>)
    requires |loads| == |parts|
    requires forall i :: 0 <= i < |parts| ==> Inside(parts[i], |vs|) && loads[i] == Load(vs, parts[i])
    ensures Inside(Flatten(parts), |vs|) && Load(vs, Flatten(parts)) == Sum(loads)
  {
    if parts != [] {
      FlattenLoad(vs, parts[1..], loads[1..]);
      LoadConcat(vs, parts[0], Flatten(parts[1..]));
      SumRemove(loads, loads[1..], 0);
    }
  }

  lemma WholeLoad(vs: seq<int>, part: seq<nat>)
    requires Inside(part, |vs|) && multiset(part) == multiset(Range(|vs|))
    ensures Load(vs, part) == Sum(vs)
  {
    var all := Range(|vs|);
    PermutedLoad(vs, part, all);
    assert At(vs, all) == vs;
  }

  /** A partition conserves the total. */
  lemma LoadsTotal(vs: seq<int>, parts: seq<seq<nat>>)
    requires ExactlyOnce(parts, |vs|)
    ensures Sum(Loads(vs, parts)) == Sum(vs)
  {
    FlattenLoad(vs, parts, Loads(vs, parts));
    WholeLoad(vs, Flatten(parts));
  }

  // --------------------------------------------------------------------------
  // Any assignment of the values to k parts
  // --------------------------------------------------------------------------

  function AssignedLoad(vs: seq<int>, assign: seq<nat>, p: nat): int
    requires |assign| == |vs|
  {
    if vs == [] then 0
    else
      var last := |vs| - 1;
      AssignedLoad(vs[..last], assign[..last], p) + if assign[last] == p then vs[last] else 0
  }

  function AssignedLoads(vs: seq<int>, assign: seq<nat>, k: nat): (loads: seq<int>)
    requires |assign| == |vs|
    ensures |loads| == k
  {
    seq(k, p requires 0 <= p < k => AssignedLoad(vs, assign, p))
  }

  lemma {:induction false} AssignedTotal(vs: seq<int>, assign: seq<nat>, k: nat)
    requires |assign| == |vs| && forall i :: 0 <= i < |vs| ==> assign[i] < k
    ensures Sum(AssignedLoads(vs, assign, k)) == Sum(vs)
  {
    var loads := AssignedLoads(vs, assign, k);
    if vs == [] {
      SumOfEqual(loads, 0);
    } else {
      var last := |vs| - 1;
      var before := AssignedLoads(vs[..last], assign[..last], k);
      AssignedTotal(vs[..last], assign[..last], k);
      assert loads == before[assign[last] := before[assign[last]] + vs[last]];
      SumUpdate(before, assign[last], before[assign[last]] + vs[last]);
    }
  }

  lemma {:induction false} AssignedItem(vs: seq<int>, assign: seq<nat>, i: nat, p: nat)
    requires |assign| == |vs| && forall j :: 0 <= j < |vs| ==> vs[j] >= 0
    requires i < |vs| ==> assign[i] == p
    ensures AssignedLoad(vs, assign, p) >= 0
    ensures i < |vs| ==> AssignedLoad(vs, assign, p) >= vs[i]
  {
    if vs != [] {
      var last := |vs| - 1;
      AssignedItem(vs[..last], assign[..last], if i < last then i else |vs|, p);
    }
  }

  /** Whatever the assignment, its largest load is at least the average and at least every item. */
  lemma EveryAssignment(vs: seq<int>, assign: seq<nat>, k: nat, most: int)
    requires |assign| == |vs| && forall i :: 0 <= i < |vs| ==> vs[i] >= 0 && assign[i] < k
    requires forall p: nat :: p < k ==> AssignedLoad(vs, assign, p) <= most
    ensures Sum(vs) <= k * most
    ensures forall i :: 0 <= i < |vs| ==> vs[i] <= most
  {
    AssignedTotal(vs, assign, k);
    SumAtMost(AssignedLoads(vs, assign, k), most);
    forall i: nat | i < |vs|
      ensures vs[i] <= most
    {
      AssignedItem(vs, assign, i, assign[i]);
    }
  }

  // --------------------------------------------------------------------------
  // Loads that are close to each other are close to the average
  // --------------------------------------------------------------------------

  lemma {:induction false} SumAtLeast(s: seq<int>, m: int)
    requires forall i :: 0 <= i < |s| ==> s[i] >= m
    ensures Sum(s) >= |s| * m
  {
    if s != [] {
      SumAtLeast(s[..|s| - 1], m);
      assert |s| * m == (|s| - 1) * m + m;
    }
  }

  lemma SpreadBound(loads: seq<int>, w: int, p: nat)
    requires p < |loads| && forall q :: 0 <= q < |loads| ==> loads[p] - loads[q] <= w
    ensures |loads| * loads[p] <= Sum(loads) + (|loads| - 1) * w
  {
    var k, m := |loads|, loads[p];
    SumSplit(loads, p);
    SumAtLeast(loads[..p], m - w);
    SumAtLeast(loads[p + 1..], m - w);
    Regroup(p, k - 1 - p, m - w);
    Apart(k - 1, m, w);
  }

  lemma Regroup(a: int, b: int, x: int)
    ensures a * x + b * x == (a + b) * x
  {
  }

  lemma Apart(a: int, m: int, w: int)
    ensures a * (m - w) == (a + 1) * m - m - a * w
  {
  }

  /** The step from a spread bound to a bound against the best assignment. */
  lemma AgainstAssignment(k: nat, load: int, total: int, most: int)
    requires k * load <= total + (k - 1) * most && total <= k * most
    ensures k * load <= (2 * k - 1) * most
  {
    assert (2 * k - 1) * most == k * most + (k - 1) * most;
  }

  // --------------------------------------------------------------------------
  // Sizes
  // --------------------------------------------------------------------------

  function Sizes(parts: seq<seq<nat>>): (sizes: seq<int>)
    ensures |sizes| == |parts|
  {
    seq(|parts|, i requires 0 <= i < |parts| => |parts[i]|)
  }

  lemma {:induction false} SizesTotal(parts: seq<seq<nat>>)
    ensures Sum(Sizes(parts)) == |Flatten(parts)|
  {
    if parts != [] {
      SizesTotal(parts[1..]);
      SumSplit(Sizes(parts), 0);
      assert Sizes(parts)[1..] == Sizes(parts[1..]);
    }
  }

  /** If n parts share n positions and none is empty, each has one. */
  lemma AllOnes(sizes: seq<int>, p: nat)
    requires p < |sizes| == Sum(sizes) && forall i :: 0 <= i < |sizes| ==> sizes[i] >= 1
    ensures sizes[p] == 1
  {
    SumSplit(sizes, p);
    SumAtLeast(sizes[..p], 1);
    SumAtLeast(sizes[p + 1..], 1);
  }
}
