/** The checked and sorted partition that callers ask for: its run-time assertions, and why they
    never fire. */
module BalancedPartitions {
  import opened KarmarkarKarp
  import opened Lists
  import opened Partitions
  import opened Sorting
  import PartitionRun

  // --------------------------------------------------------------------------
  // Sorting the indices of a part
  // --------------------------------------------------------------------------

  predicate AtMost(a: nat, b: nat) {
    a <= b
  }

  function SortIdxs(s: seq<nat>): (r: seq<nat>) {
    Sort(AtMost, s)
  }

  ghost predicate Ascending(s: seq<nat>) {
    forall i, j :: 0 <= i < j < |s| ==> s[i] <= s[j]
  }

  lemma SortIdxsSorts(s: seq<nat>)
    ensures multiset(SortIdxs(s)) == multiset(s) && Ascending(SortIdxs(s))
    ensures |SortIdxs(s)| == |s|
  {
    var r := SortIdxs(s);
    SortPermutes(AtMost, s);
    SortSorts(AtMost, s);
    forall i, j | 0 <= i < j < |r|
      ensures r[i] <= r[j]
    {
      assert AtMost(r[i], r[j]);
    }
  }

  function SortParts(parts: seq<seq<nat>>): (r: seq<seq<nat>>)
    ensures |r| == |parts|
  {
    seq(|parts|, i requires 0 <= i < |parts| => SortIdxs(parts[i]))
  }

  lemma {:induction false} SortPartsPermutes(parts: seq<seq<nat>>)
    ensures multiset(Flatten(SortParts(parts))) == multiset(Flatten(parts))
  {
    if parts != [] {
      calc {
        multiset(Flatten(SortParts(parts)));
        { assert SortParts(parts)[1..] == SortParts(parts[1..]); }
        multiset(SortIdxs(parts[0]) + Flatten(SortParts(parts[1..])));
        multiset(SortIdxs(parts[0])) + multiset(Flatten(SortParts(parts[1..])));
        { SortIdxsSorts(parts[0]); SortPartsPermutes(parts[1..]); }
        multiset(parts[0]) + multiset(Flatten(parts[1..]));
        multiset(Flatten(parts));
      }
    }
  }

  // --------------------------------------------------------------------------
  // The checks
  // --------------------------------------------------------------------------

  function Seen(parts: seq<seq<nat>>): set<nat> {
    set x | x in Flatten(parts)
  }

  function AllIndices(n: nat): set<nat> {
    set x | x in Range(n)
  }

  function Checked(parts: seq<seq<nat>>, k: int, n: nat): Outcome {
    if |parts| != k || (exists i :: 0 <= i < |parts| && parts[i] == []) then AssertionError
    else if Seen(parts) != AllIndices(n) then AssertionError
    else Ok(SortParts(parts))
  }

  function Balanced(vs: seq<int>, k: int, equal: bool): Outcome {
    if |vs| < k then AssertionError
    else
      var r := Partition(vs, k, equal);
      if r.Ok? then Checked(r.parts, k, |vs|) else r
  }

  lemma SeenAll(parts: seq<seq<nat>>, n: nat)
    requires ExactlyOnce(parts, n)
    ensures Seen(parts) == AllIndices(n)
  {
    forall x: nat
      ensures x in Seen(parts) <==> x in AllIndices(n)
    {
      assert x in Flatten(parts) <==> x in multiset(Flatten(parts));
      assert x in Range(n) <==> x in multiset(Range(n));
    }
  }

  /** A call succeeds exactly when 1 <= k <= n and, for equal sizes, k divides n: past the entry
      checks no assertion ever fires. */
  lemma BalancedSucceeds(vs: seq<int>, k: int, equal: bool)
    requires NonNegative(vs)
    ensures Balanced(vs, k, equal).Ok? <==> 1 <= k <= |vs| && (equal ==> |vs| % k == 0)
    ensures Balanced(vs, k, equal).Ok? ==>
              Balanced(vs, k, equal).parts == SortParts(Parts(Final(vs, k, equal)))
  {
    Succeeds(vs, k, equal);
    if 1 <= k <= |vs| && (equal ==> |vs| % k == 0) {
      CoversOnce(vs, k, equal);
      NoneEmpty(vs, k, equal);
      SeenAll(Partition(vs, k, equal).parts, |vs|);
    }
  }

  /** The parts: each index once, none empty, indices ascending, and n / k each when asked for. */
  lemma BalancedParts(vs: seq<int>, k: int, equal: bool)
    requires NonNegative(vs) && 1 <= k <= |vs| && (equal ==> |vs| % k == 0)
    ensures var r := Balanced(vs, k, equal);
            && r.Ok? && |r.parts| == k && ExactlyOnce(r.parts, |vs|)
            && forall i :: 0 <= i < k ==>
                 r.parts[i] != [] && Ascending(r.parts[i]) && (equal ==> |r.parts[i]| * k == |vs|)
  {
    BalancedSucceeds(vs, k, equal);
    CoversOnce(vs, k, equal);
    NoneEmpty(vs, k, equal);
    Succeeds(vs, k, equal);
    var parts := Partition(vs, k, equal).parts;
    SortPartsPermutes(parts);
    if equal {
      EqualSizes(vs, k);
    }
    forall i | 0 <= i < k
      ensures SortParts(parts)[i] != [] && Ascending(SortParts(parts)[i])
      ensures |SortParts(parts)[i]| == |parts[i]|
    {
      SortIdxsSorts(parts[i]);
    }
  }

  lemma SameLoad(vs: seq<int>, k: int, equal: bool, p: nat)
    requires NonNegative(vs) && 1 <= k <= |vs| && (equal ==> |vs| % k == 0) && p < k
    ensures var r, q := Balanced(vs, k, equal), Partition(vs, k, equal);
            && r.Ok? && |r.parts| == k && ExactlyOnce(r.parts, |vs|)
            && q.Ok? && |q.parts| == k && ExactlyOnce(q.parts, |vs|)
            && Loads(vs, r.parts)[p] == Loads(vs, q.parts)[p]
  {
    BalancedParts(vs, k, equal);
    BalancedSucceeds(vs, k, equal);
    CoversOnce(vs, k, equal);
    Succeeds(vs, k, equal);
    var parts := Partition(vs, k, equal).parts;
    SortIdxsSorts(parts[p]);
    PartInside(parts, |vs|, p);
    PartInside(SortParts(parts), |vs|, p);
    PermutedLoad(vs, SortIdxs(parts[p]), parts[p]);
  }

  /** The balance guarantee of the returned parts, against any assignment to k parts. */
  lemma BalancedNearOptimal(vs: seq<int>, k: int, equal: bool, assign: seq<nat>, most: int, p: nat)
    requires NonNegative(vs) && 1 <= k <= |vs| && (equal ==> |vs| % k == 0) && p < k
    requires |assign| == |vs| && forall i :: 0 <= i < |vs| ==> assign[i] < k
    requires forall q: nat :: q < k ==> AssignedLoad(vs, assign, q) <= most
    ensures var r := Balanced(vs, k, equal);
            && r.Ok? && |r.parts| == k && ExactlyOnce(r.parts, |vs|)
            && k * Loads(vs, r.parts)[p] <= (2 * k - 1) * most
  {
    SameLoad(vs, k, equal, p);
    NearOptimal(vs, k, equal, assign, most, p);
  }

  // --------------------------------------------------------------------------
  // The run
  // --------------------------------------------------------------------------

  method AddAll(seen: set<nat>, part: seq<nat>) returns (r: set<nat>)
    ensures r == seen + set x | x in part
  {
    r := seen;
    var j := 0;
    while j < |part|
      invariant 0 <= j <= |part| && r == seen + set x | x in part[..j]
    {
      assert part[..j + 1] == part[..j] + [part[j]];
      r := r + {part[j]};
      j := j + 1;
    }
    assert part[..j] == part;
  }

  method CheckAndSort(parts: seq<seq<nat>>, k: nat, n: nat) returns (r: Outcome)
    ensures r == Checked(parts, k, n)
  {
    if |parts| != k {
      return AssertionError;
    }
    var seen: set<nat> := {};
    var sorted := new seq<nat>[k](_ => []);
    var i := 0;
    while i < k
      invariant 0 <= i <= k
      invariant seen == Seen(parts[..i])
      invariant forall j :: 0 <= j < i ==> parts[j] != [] && sorted[j] == SortIdxs(parts[j])
    {
      if parts[i] == [] {
        return AssertionError;
      }
      FlattenSnoc(parts[..i], parts[i]);
      assert parts[..i + 1] == parts[..i] + [parts[i]];
      seen := AddAll(seen, parts[i]);
      sorted[i] := SortIdxs(parts[i]);
      i := i + 1;
    }
    assert parts[..i] == parts;
    if seen != AllIndices(n) {
      return AssertionError;
    }
    assert sorted[..] == SortParts(parts);
    return Ok(sorted[..]);
  }

  /** `get_seqlen_balanced_partitions` itself. */
  method GetBalanced(vs: seq<int>, k: int, equal: bool) returns (r: Outcome)
    ensures r == Balanced(vs, k, equal)
  {
    if |vs| < k {
      return AssertionError;
    }
    r := PartitionRun.Run(vs, k, equal);
    if r.Ok? {
      if k < 0 {
        return AssertionError;
      }
      r := CheckAndSort(r.parts, k, |vs|);
    }
  }
}
