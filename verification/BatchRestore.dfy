/** Splitting a batch into micro-batches and putting per-row results back in the batch's order. */
module BatchRestore {
  import opened KarmarkarKarp
  import opened Lists
  import opened MicroBatches
  import opened Options
  import opened Partitions
  import BalancedPartitions

  // --------------------------------------------------------------------------
  // Inverting an index map
  // --------------------------------------------------------------------------

  predicate InRange(idx: seq<nat>) {
    forall i :: 0 <= i < |idx| ==> idx[i] < |idx|
  }

  /** The copy of the map after n of its entries have been written back. */
  function ReverseUpTo(idx: seq<nat>, n: nat): (r: seq<nat>)
    requires InRange(idx) && n <= |idx|
    ensures |r| == |idx|
  {
    if n == 0 then idx else ReverseUpTo(idx, n - 1)[idx[n - 1] := n - 1]
  }

  ghost predicate NoRepeats(idx: seq<nat>) {
    forall i, j :: 0 <= i < j < |idx| ==> idx[i] != idx[j]
  }

  /** A position holds the last entry that names it. */
  lemma {:induction false} ReverseHolds(idx: seq<nat>, n: nat, i: nat)
    requires InRange(idx) && i < n <= |idx|
    requires forall j :: i < j < n ==> idx[j] != idx[i]
    ensures ReverseUpTo(idx, n)[idx[i]] == i
  {
    if i < n - 1 {
      ReverseHolds(idx, n - 1, i);
    }
  }

  /** The result sends idx[i] back to i for every i exactly when the map repeats no index. */
  lemma ReverseInverts(idx: seq<nat>)
    requires InRange(idx)
    ensures (forall i :: 0 <= i < |idx| ==> ReverseUpTo(idx, |idx|)[idx[i]] == i) <==> NoRepeats(idx)
  {
    if NoRepeats(idx) {
      forall i: nat | i < |idx|
        ensures ReverseUpTo(idx, |idx|)[idx[i]] == i
      {
        ReverseHolds(idx, |idx|, i);
      }
    }
  }

  /** `get_reverse_idx` itself; None is an index past the end. */
  method GetReverseIdx(idx: seq<nat>) returns (r: Option<seq<nat>>)
    ensures r == if InRange(idx) then Some(ReverseUpTo(idx, |idx|)) else None
  {
    var out := new nat[|idx|](i requires 0 <= i < |idx| => idx[i]);
    assert out[..] == idx;
    var i := 0;
    while i < |idx|
      invariant 0 <= i <= |idx|
      invariant forall j :: 0 <= j < i ==> idx[j] < |idx|
      invariant InRange(idx) ==> out[..] == ReverseUpTo(idx, i)
    {
      if idx[i] >= out.Length {
        return None;
      }
      out[idx[i]] := i;
      i := i + 1;
    }
    return Some(out[..]);
  }

  // --------------------------------------------------------------------------
  // Permutations
  // --------------------------------------------------------------------------

  lemma {:induction false} RangeOnce(n: nat, x: nat)
    ensures multiset(Range(n))[x] == if x < n then 1 else 0
  {
    if n > 0 {
      RangeOnce(n - 1, x);
      assert Range(n) == Range(n - 1) + [n - 1];
    }
  }

  /** A permutation of 0 .. n-1 stays in range, repeats nothing, and reaches everything. */
  lemma PermutationIs(idx: seq<nat>, n: nat)
    requires multiset(idx) == multiset(Range(n))
    ensures |idx| == n && InRange(idx) && NoRepeats(idx)
    ensures forall x: nat :: x < n ==> x in idx
  {
    assert |idx| == |multiset(idx)| == |multiset(Range(n))| == n;
    forall i | 0 <= i < n
      ensures idx[i] < n
    {
      assert idx[i] in multiset(idx);
      RangeOnce(n, idx[i]);
    }
    forall i, j | 0 <= i < j < n
      ensures idx[i] != idx[j]
    {
      RangeOnce(n, idx[i]);
      assert idx == idx[..j] + idx[j..];
      assert idx[i] in idx[..j] && idx[j] in idx[j..];
    }
    forall x: nat | x < n
      ensures x in idx
    {
      RangeOnce(n, x);
      assert x in multiset(idx);
    }
  }

  // --------------------------------------------------------------------------
  // Splitting, running, restoring
  // --------------------------------------------------------------------------

  function Select<T>(rows: seq<T>, part: seq<nat>): (r: seq<T>)
    requires Inside(part, |rows|)
    ensures |r| == |part|
  {
    seq(|part|, i requires 0 <= i < |part| => rows[part[i]])
  }

  function MapRows<T, U>(f: T -> U, rows: seq<T>): (r: seq<U>)
    ensures |r| == |rows|
  {
    seq(|rows|, i requires 0 <= i < |rows| => f(rows[i]))
  }

  function Batches<T>(rows: seq<T>, parts: seq<seq<nat>>): (r: seq<seq<T>>)
    requires AllInside(parts, |rows|)
    ensures |r| == |parts|
  {
    seq(|parts|, i requires 0 <= i < |parts| => Select(rows, parts[i]))
  }

  /** Each micro-batch run on its own and the results concatenated. */
  function RunAll<T, U>(f: T -> U, batches: seq<seq<T>>): seq<U> {
    if batches == [] then [] else MapRows(f, batches[0]) + RunAll(f, batches[1..])
  }

  /** None stands for the assertion on the lengths or an index past the end. */
  function Restore<T>(data: seq<T>, parts: seq<seq<nat>>): Option<seq<T>> {
    var idx := Flatten(parts);
    if |idx| != |data| || !InRange(idx) then None
    else
      var back := ReverseUpTo(idx, |idx|);
      if forall i :: 0 <= i < |back| ==> back[i] < |data| then Some(Select(data, back)) else None
  }

  lemma SelectConcat<T, U>(f: T -> U, rows: seq<T>, a: seq<nat>, b: seq<nat>)
    requires Inside(a, |rows|) && Inside(b, |rows|)
    ensures Inside(a + b, |rows|)
    ensures MapRows(f, Select(rows, a + b)) == MapRows(f, Select(rows, a)) + MapRows(f, Select(rows, b))
  {
  }

  lemma {:induction false} RunAllIs<T, U>(f: T -> U, rows: seq<T>, parts: seq<seq<nat>>)
    requires AllInside(parts, |rows|)
    ensures Inside(Flatten(parts), |rows|)
    ensures RunAll(f, Batches(rows, parts)) == MapRows(f, Select(rows, Flatten(parts)))
  {
    if parts != [] {
      var head, rest := parts[0], parts[1..];
      RunAllIs(f, rows, rest);
      assert Batches(rows, parts)[1..] == Batches(rows, rest);
      SelectConcat(f, rows, head, Flatten(rest));
    }
  }

  lemma {:induction false} ReverseBelow(idx: seq<nat>, n: nat)
    requires InRange(idx) && n <= |idx|
    ensures InRange(ReverseUpTo(idx, n))
  {
    if n > 0 {
      ReverseBelow(idx, n - 1);
    }
  }

  /** Restoring undoes any split that holds every row once: running a per-row function on the
      micro-batches and restoring is running it on the whole batch. */
  lemma RestoreUndoesSplit<T, U>(f: T -> U, rows: seq<T>, parts: seq<seq<nat>>)
    requires ExactlyOnce(parts, |rows|) && AllInside(parts, |rows|)
    ensures Restore(RunAll(f, Batches(rows, parts)), parts) == Some(MapRows(f, rows))
  {
    var idx := Flatten(parts);
    var n := |rows|;
    PermutationIs(idx, n);
    RunAllIs(f, rows, parts);
    var data := RunAll(f, Batches(rows, parts));
    var back := ReverseUpTo(idx, n);
    ReverseBelow(idx, n);
    ReverseInverts(idx);
    forall j: nat | j < n
      ensures data[back[j]] == f(rows[j])
    {
      assert j in idx;
      var i :| 0 <= i < n && idx[i] == j;
      assert back[idx[i]] == i;
    }
    assert Select(data, back) == MapRows(f, rows);
  }

  /** Dynamic micro-batching is invisible: whatever the lengths, options and order. */
  lemma DynamicBatchRoundTrip<T, U>(f: T -> U, rows: seq<T>, lens: seq<int>, maxSeqLen: int,
                                    maxTokens: int, o: CountOptions, balance: bool)
    requires NonNegative(lens) && |lens| == |rows|
    requires Rearrange(lens, maxSeqLen, maxTokens, o, balance).Ok?
    ensures var parts := Rearrange(lens, maxSeqLen, maxTokens, o, balance).parts;
            AllInside(parts, |rows|) && Restore(RunAll(f, Batches(rows, parts)), parts) == Some(MapRows(f, rows))
  {
    RearrangeCovers(lens, maxSeqLen, maxTokens, o, balance);
    RestoreUndoesSplit(f, rows, Rearrange(lens, maxSeqLen, maxTokens, o, balance).parts);
  }

  // --------------------------------------------------------------------------
  // The runs
  // --------------------------------------------------------------------------

  method CountMicroBatches(n: nat, total: int, maxTokens: int, o: CountOptions) returns (count: int)
    requires maxTokens != 0 && o.dividedBy != Some(0)
    ensures count == MicroCount(n, total, maxTokens, o)
  {
    var ceil := CeilDiv(total, maxTokens);
    count := if n <= ceil then n else ceil;
    if o.least.Some? {
      count := Max(o.least.value, count);
    }
    if o.others.Some? {
      count := Max(count, o.others.value);
    }
    if o.dividedBy.Some? {
      count := RoundUpDivisible(count, o.dividedBy.value);
    }
  }

  method RearrangeIndices(lens: seq<int>, maxSeqLen: int, maxTokens: int, o: CountOptions, balance: bool)
    returns (r: Outcome)
    requires NonNegative(lens)
    ensures r == Rearrange(lens, maxSeqLen, maxTokens, o, balance)
  {
    if maxTokens < maxSeqLen {
      return AssertionError;
    }
    if maxTokens == 0 || o.dividedBy == Some(0) {
      return ZeroDivisionError;
    }
    var count := CountMicroBatches(|lens|, IntSeqs.Sum(lens), maxTokens, o);
    if count > |lens| {
      return AssertionError;
    }
    var ws := Workloads(lens);
    WorkloadsNonNegative(lens);
    r := BalancedPartitions.GetBalanced(ws, count, false);
    if r.Ok? {
      BalancedInside(ws, count);
      r := Ok(if balance then Peaked(SortByKey(ws, r.parts)) else r.parts);
    }
  }

  method SelectBatches<T>(rows: seq<T>, parts: seq<seq<nat>>) returns (batches: seq<seq<T>>)
    requires AllInside(parts, |rows|)
    ensures batches == Batches(rows, parts)
  {
    batches := [];
    while |batches| < |parts|
      invariant |batches| <= |parts| && batches == Batches(rows, parts)[..|batches|]
    {
      batches := batches + [Select(rows, parts[|batches|])];
    }
  }

  /** `rearrange_micro_batches` itself: the micro-batches and their index lists. */
  method RearrangeMicroBatches<T>(rows: seq<T>, lens: seq<int>, maxSeqLen: int, maxTokens: int,
                                  o: CountOptions, balance: bool)
    returns (r: Outcome, batches: seq<seq<T>>)
    requires NonNegative(lens) && |lens| == |rows|
    ensures r == Rearrange(lens, maxSeqLen, maxTokens, o, balance)
    ensures r.Ok? ==> AllInside(r.parts, |rows|) && batches == Batches(rows, r.parts)
  {
    r := RearrangeIndices(lens, maxSeqLen, maxTokens, o, balance);
    batches := [];
    if r.Ok? {
      RearrangeCovers(lens, maxSeqLen, maxTokens, o, balance);
      batches := SelectBatches(rows, r.parts);
    }
  }

  /** `restore_dynamic_batch` itself. */
  method RestoreDynamicBatch<T>(data: seq<T>, parts: seq<seq<nat>>) returns (r: Option<seq<T>>)
    ensures r == Restore(data, parts)
  {
    var idx := Flatten(parts);
    if |idx| != |data| {
      return None;
    }
    var back := GetReverseIdx(idx);
    if back.None? {
      return None;
    }
    ReverseBelow(idx, |idx|);
    return Some(Select(data, back.value));
  }
}
