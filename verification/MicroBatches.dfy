/** Dynamic micro-batches: how many there are, which rows each one holds, the order they run in,
    and how results are put back in the batch's own order. */
module MicroBatches {
  import opened BalancedPartitions
  import opened IntSeqs
  import opened KarmarkarKarp
  import opened Lists
  import opened Options
  import opened Partitions
  import opened Sorting

  // --------------------------------------------------------------------------
  // Counting micro-batches
  // --------------------------------------------------------------------------

  function CeilDiv(a: int, b: int): int
    requires b != 0
  {
    -FloorDiv(a, -b)
  }

  function RoundUpDivisible(a: int, b: int): int
    requires b != 0
  {
    FloorDiv(a + b - 1, b) * b
  }

  /** The least count whose b-fold covers a. */
  lemma CeilDivIsLeast(a: int, b: int, c: int)
    requires b >= 1
    ensures c >= CeilDiv(a, b) <==> c * b >= a
  {
    var q, r := (-a) / b, (-a) % b;
    assert -a == b * q + r;
    if c >= -q {
      ProductMonotone(b, -q, c);
    } else {
      ProductMonotone(b, c, -q - 1);
      assert b * (-q - 1) == -(b * q) - b;
    }
  }

  /** The least multiple of b that is not below a. */
  lemma RoundUpIsLeastMultiple(a: int, b: int, m: int)
    requires b >= 1
    ensures RoundUpDivisible(a, b) >= a && RoundUpDivisible(a, b) % b == 0
    ensures m * b >= a ==> m * b >= RoundUpDivisible(a, b)
  {
    var q, r := (a + b - 1) / b, (a + b - 1) % b;
    assert a + b - 1 == b * q + r;
    NoRemainder(q, b);
    if m < q {
      ProductMonotone(b, m, q - 1);
      assert b * (q - 1) == b * q - b;
    }
  }

  /** The optional arguments: a least number of micro-batches, the largest number on the other
      ranks when ranks must agree, and a number the count must be a multiple of. */
  datatype CountOptions = CountOptions(least: Option<int>, others: Option<int>, dividedBy: Option<int>)

  function Max(a: int, b: int): int {
    if a >= b then a else b
  }

  function MicroCount(n: nat, total: int, maxTokens: int, o: CountOptions): int
    requires maxTokens != 0 && o.dividedBy != Some(0)
  {
    var c0 := if n <= CeilDiv(total, maxTokens) then n else CeilDiv(total, maxTokens);
    var c1 := if o.least.Some? then Max(o.least.value, c0) else c0;
    var c2 := if o.others.Some? then Max(c1, o.others.value) else c1;
    if o.dividedBy.Some? then RoundUpDivisible(c2, o.dividedBy.value) else c2
  }

  /** Enough micro-batches for the tokens, and as many as every option asks for. */
  lemma MicroCountEnough(lens: seq<int>, maxTokens: int, o: CountOptions)
    requires maxTokens >= 1 && forall i :: 0 <= i < |lens| ==> lens[i] <= maxTokens
    requires o.dividedBy.Some? ==> o.dividedBy.value >= 1
    ensures var c := MicroCount(|lens|, Sum(lens), maxTokens, o);
            && c * maxTokens >= Sum(lens)
            && (o.least.Some? ==> c >= o.least.value)
            && (o.others.Some? ==> c >= o.others.value)
            && (o.dividedBy.Some? ==> c % o.dividedBy.value == 0)
  {
    var total, c := Sum(lens), MicroCount(|lens|, Sum(lens), maxTokens, o);
    SumAtMost(lens, maxTokens);
    CeilDivIsLeast(total, maxTokens, |lens|);
    CeilDivIsLeast(total, maxTokens, c);
    var c0 := CeilDiv(total, maxTokens);
    var c1 := if o.least.Some? then Max(o.least.value, c0) else c0;
    var c2 := if o.others.Some? then Max(c1, o.others.value) else c1;
    if o.dividedBy.Some? {
      RoundUpIsLeastMultiple(c2, o.dividedBy.value, 0);
    }
  }

  // --------------------------------------------------------------------------
  // Workloads and the order of micro-batches
  // --------------------------------------------------------------------------

  function Workload(len: int): int {
    24576 * len + len * len
  }

  function Workloads(lens: seq<int>): (ws: seq<int>)
    ensures |ws| == |lens|
  {
    seq(|lens|, i requires 0 <= i < |lens| => Workload(lens[i]))
  }

  /** Sorting key: the part's workload, then its first index. */
  predicate KeyAtLeast(ws: seq<int>, a: seq<nat>, b: seq<nat>) {
    var load := (p: seq<nat>) => if Inside(p, |ws|) then Load(ws, p) else 0;
    var first := (p: seq<nat>) => if p == [] then 0 else p[0];
    load(a) > load(b) || (load(a) == load(b) && first(a) >= first(b))
  }

  function Keys(ws: seq<int>): (seq<nat>, seq<nat>) -> bool {
    (a, b) => KeyAtLeast(ws, a, b)
  }

  ghost predicate AllInside(parts: seq<seq<nat>>, n: nat) {
    forall i :: 0 <= i < |parts| ==> Inside(parts[i], n)
  }

  function SortByKey(ws: seq<int>, s: seq<seq<nat>>): (r: seq<seq<nat>>)
    requires AllInside(s, |ws|)
    ensures AllInside(r, |ws|) && |r| == |s|
  {
    SortPermutes(Keys(ws), s);
    var r := Sort(Keys(ws), s);
    assert forall i :: 0 <= i < |r| ==> r[i] in multiset(r);
    r
  }

  /** Even positions backwards, then odd positions: the heaviest ends up in the middle. */
  function Peaked<T>(s: seq<T>): (r: seq<T>)
    ensures |r| == |s|
  {
    var evens := (|s| + 1) / 2;
    seq(evens, i requires 0 <= i < evens => s[2 * (evens - 1 - i)])
    + seq(|s| / 2, i requires 0 <= i < |s| / 2 => s[2 * i + 1])
  }

  lemma PeakedSnoc<T>(s: seq<T>, x: T)
    ensures Peaked(s + [x]) == if |s| % 2 == 0 then [x] + Peaked(s) else Peaked(s) + [x]
  {
  }

  lemma {:induction false} PeakedFlatten(s: seq<seq<nat>>)
    ensures multiset(Flatten(Peaked(s))) == multiset(Flatten(s))
  {
    if s != [] {
      var last := |s| - 1;
      var init, x := s[..last], s[last];
      assert s == init + [x];
      PeakedSnoc(init, x);
      PeakedFlatten(init);
      FlattenConcat(init, [x]);
      FlattenConcat(Peaked(init), [x]);
      assert Flatten([x]) == x + Flatten([]);
      FlattenConcat([x], Peaked(init));
    }
  }

  lemma {:induction false} InsertFlatten(le: (seq<nat>, seq<nat>) -> bool, x: seq<nat>, s: seq<seq<nat>>)
    ensures multiset(Flatten(Insert(le, x, s))) == multiset(x) + multiset(Flatten(s))
  {
    if s != [] && !le(x, s[0]) {
      InsertFlatten(le, x, s[1..]);
    }
  }

  lemma {:induction false} SortFlatten(le: (seq<nat>, seq<nat>) -> bool, s: seq<seq<nat>>)
    ensures multiset(Flatten(Sort(le, s))) == multiset(Flatten(s))
  {
    if s != [] {
      SortFlatten(le, s[1..]);
      InsertFlatten(le, s[0], Sort(le, s[1..]));
    }
  }

  ghost predicate HeaviestFirst(ws: seq<int>, s: seq<seq<nat>>)
    requires AllInside(s, |ws|)
  {
    forall i, j :: 0 <= i < j < |s| ==> Load(ws, s[i]) >= Load(ws, s[j])
  }

  lemma SortByKeySorts(ws: seq<int>, s: seq<seq<nat>>)
    requires AllInside(s, |ws|)
    ensures HeaviestFirst(ws, SortByKey(ws, s))
  {
    var r := SortByKey(ws, s);
    SortSorts(Keys(ws), s);
    forall i, j | 0 <= i < j < |r|
      ensures Load(ws, r[i]) >= Load(ws, r[j])
    {
      assert Keys(ws)(r[i], r[j]);
    }
  }

  /** The workloads rise up to position `peak` and fall after it. */
  ghost predicate RisesThenFalls(ws: seq<int>, s: seq<seq<nat>>, peak: nat)
    requires AllInside(s, |ws|)
  {
    && peak < |s|
    && (forall i, j :: 0 <= i < j <= peak ==> Load(ws, s[i]) <= Load(ws, s[j]))
    && forall i, j :: peak <= i < j < |s| ==> Load(ws, s[i]) >= Load(ws, s[j])
  }

  lemma PeakedRises(ws: seq<int>, s: seq<seq<nat>>)
    requires AllInside(s, |ws|) && HeaviestFirst(ws, s) && s != []
    ensures AllInside(Peaked(s), |ws|)
    ensures RisesThenFalls(ws, Peaked(s), (|s| - 1) / 2)
  {
    var t, peak := Peaked(s), (|s| - 1) / 2;
    forall i | 0 <= i < |s|
      ensures t[i] == s[if i <= peak then 2 * (peak - i) else 2 * (i - peak) - 1]
    {
    }
  }

  // --------------------------------------------------------------------------
  // Rearranging a batch
  // --------------------------------------------------------------------------

  function Reorder(ws: seq<int>, parts: seq<seq<nat>>, balance: bool): seq<seq<nat>>
    requires AllInside(parts, |ws|)
  {
    if balance then Peaked(SortByKey(ws, parts)) else parts
  }

  /** A partition's parts hold row numbers, whatever happens next. */
  lemma BalancedInside(ws: seq<int>, k: int)
    requires NonNegative(ws) && Balanced(ws, k, false).Ok?
    ensures AllInside(Balanced(ws, k, false).parts, |ws|)
    ensures 1 <= k <= |ws| && |Balanced(ws, k, false).parts| == k
    ensures ExactlyOnce(Balanced(ws, k, false).parts, |ws|)
  {
    BalancedSucceeds(ws, k, false);
    BalancedParts(ws, k, false);
    forall i: nat | i < k
      ensures Inside(Balanced(ws, k, false).parts[i], |ws|)
    {
      PartInside(Balanced(ws, k, false).parts, |ws|, i);
    }
  }

  lemma WorkloadsNonNegative(lens: seq<int>)
    requires NonNegative(lens)
    ensures NonNegative(Workloads(lens))
  {
    forall i | 0 <= i < |lens|
      ensures Workload(lens[i]) >= 0
    {
      ProductNonNegative(lens[i], lens[i]);
    }
  }

  /** Which rows each micro-batch gets: row i has lens[i] tokens and is maxSeqLen wide. */
  function Rearrange(lens: seq<int>, maxSeqLen: int, maxTokens: int, o: CountOptions, balance: bool): Outcome
    requires NonNegative(lens)
  {
    if maxTokens < maxSeqLen then AssertionError
    else if maxTokens == 0 || o.dividedBy == Some(0) then ZeroDivisionError
    else
      var count := MicroCount(|lens|, Sum(lens), maxTokens, o);
      var ws := Workloads(lens);
      WorkloadsNonNegative(lens);
      if count > |lens| then AssertionError
      else
        var r := Balanced(ws, count, false);
        if r.Ok? then
          BalancedInside(ws, count);
          Ok(Reorder(ws, r.parts, balance))
        else r
  }

  /** Rearranging succeeds exactly when the widest row fits, nothing divides by zero, and the
      count lies between one and the number of rows. */
  lemma RearrangeSucceeds(lens: seq<int>, maxSeqLen: int, maxTokens: int, o: CountOptions, balance: bool)
    requires NonNegative(lens)
    ensures Rearrange(lens, maxSeqLen, maxTokens, o, balance).Ok? <==>
            && maxTokens >= maxSeqLen && maxTokens != 0 && o.dividedBy != Some(0)
            && 1 <= MicroCount(|lens|, Sum(lens), maxTokens, o) <= |lens|
  {
    if maxTokens != 0 && o.dividedBy != Some(0) {
      var count := MicroCount(|lens|, Sum(lens), maxTokens, o);
      WorkloadsNonNegative(lens);
      BalancedSucceeds(Workloads(lens), count, false);
    }
  }

  /** The micro-batches hold every row once, there are as many as counted, and when balanced
      their workloads rise to one peak and then fall. */
  lemma RearrangeCovers(lens: seq<int>, maxSeqLen: int, maxTokens: int, o: CountOptions, balance: bool)
    requires NonNegative(lens) && Rearrange(lens, maxSeqLen, maxTokens, o, balance).Ok?
    ensures var parts := Rearrange(lens, maxSeqLen, maxTokens, o, balance).parts;
            && ExactlyOnce(parts, |lens|) && AllInside(parts, |lens|)
            && |parts| == MicroCount(|lens|, Sum(lens), maxTokens, o) >= 1
            && (balance ==> RisesThenFalls(Workloads(lens), parts, (|parts| - 1) / 2))
  {
    var ws := Workloads(lens);
    var count := MicroCount(|lens|, Sum(lens), maxTokens, o);
    WorkloadsNonNegative(lens);
    BalancedInside(ws, count);
    var parts := Balanced(ws, count, false).parts;
    if balance {
      SortFlatten(Keys(ws), parts);
      SortByKeySorts(ws, parts);
      PeakedFlatten(SortByKey(ws, parts));
      PeakedRises(ws, SortByKey(ws, parts));
    }
  }

  // --------------------------------------------------------------------------
  // What a micro-batch holds
  // --------------------------------------------------------------------------

  lemma ReorderMembers(ws: seq<int>, s: seq<seq<nat>>, balance: bool, p: seq<nat>)
    requires AllInside(s, |ws|) && p in Reorder(ws, s, balance)
    ensures p in s
  {
    if balance {
      assert p in SortByKey(ws, s);
      SortMembers(Keys(ws), s, p);
    }
  }

  lemma {:induction false} TokensWithinWorkload(lens: seq<int>, part: seq<nat>)
    requires Inside(part, |lens|) && NonNegative(lens)
    ensures 24576 * Load(lens, part) <= Load(Workloads(lens), part)
  {
    if part != [] {
      var init, x := part[..|part| - 1], part[|part| - 1];
      TokensWithinWorkload(lens, init);
      SumAppend(At(lens, init), At(lens, part));
      SumAppend(At(Workloads(lens), init), At(Workloads(lens), part));
      ProductNonNegative(lens[x], lens[x]);
    }
  }

  lemma BalancedBounds(lens: seq<int>, k: int, w: int, part: seq<nat>)
    requires NonNegative(lens) && Balanced(Workloads(lens), k, false).Ok?
    requires part in Balanced(Workloads(lens), k, false).parts
    requires forall i :: 0 <= i < |lens| ==> Workload(lens[i]) <= w
    ensures part != [] && Inside(part, |lens|)
    ensures k * (24576 * Load(lens, part)) <= Sum(Workloads(lens)) + (k - 1) * w
  {
    var ws := Workloads(lens);
    WorkloadsNonNegative(lens);
    BalancedInside(ws, k);
    var p :| 0 <= p < k && Balanced(ws, k, false).parts[p] == part;
    BalancedParts(ws, k, false);
    SameLoad(ws, k, false, p);
    NearAverage(ws, k, false, w, p);
    TokensWithinWorkload(lens, part);
    ProductMonotone(k, 24576 * Load(lens, part), Load(ws, part));
  }

  /** The bound of one part, by the total workload and a bound w on one row's workload. */
  ghost predicate PartBound(lens: seq<int>, k: int, w: int, part: seq<nat>) {
    && part != [] && Inside(part, |lens|)
    && k * (24576 * Load(lens, part)) <= Sum(Workloads(lens)) + (k - 1) * w
  }

  lemma ReorderedBounds(lens: seq<int>, k: int, w: int, balance: bool, part: seq<nat>)
    requires NonNegative(lens) && Balanced(Workloads(lens), k, false).Ok?
    requires AllInside(Balanced(Workloads(lens), k, false).parts, |lens|)
    requires part in Reorder(Workloads(lens), Balanced(Workloads(lens), k, false).parts, balance)
    requires forall i :: 0 <= i < |lens| ==> Workload(lens[i]) <= w
    ensures PartBound(lens, k, w, part)
  {
    ReorderMembers(Workloads(lens), Balanced(Workloads(lens), k, false).parts, balance, part);
    BalancedBounds(lens, k, w, part);
  }

  /** No micro-batch is empty, and its tokens are bounded by the balance of workloads: w is any
      bound on one row's workload. */
  lemma RearrangeBounds(lens: seq<int>, maxSeqLen: int, maxTokens: int, o: CountOptions, balance: bool,
                        w: int, m: nat)
    requires NonNegative(lens) && Rearrange(lens, maxSeqLen, maxTokens, o, balance).Ok?
    requires m < |Rearrange(lens, maxSeqLen, maxTokens, o, balance).parts|
    requires forall i :: 0 <= i < |lens| ==> Workload(lens[i]) <= w
    ensures var parts := Rearrange(lens, maxSeqLen, maxTokens, o, balance).parts;
            && |parts| == MicroCount(|lens|, Sum(lens), maxTokens, o)
            && PartBound(lens, |parts|, w, parts[m])
  {
    var k := MicroCount(|lens|, Sum(lens), maxTokens, o);
    RearrangeCovers(lens, maxSeqLen, maxTokens, o, balance);
    WorkloadsNonNegative(lens);
    BalancedInside(Workloads(lens), k);
    ReorderedBounds(lens, k, w, balance, Rearrange(lens, maxSeqLen, maxTokens, o, balance).parts[m]);
  }

  ghost predicate CapHolds(lens: seq<int>, parts: seq<seq<nat>>, maxTokens: int)
    requires AllInside(parts, |lens|)
  {
    forall m :: 0 <= m < |parts| ==> Load(lens, parts[m]) <= maxTokens
  }

  lemma ThreesInTwo(lens: seq<int>, parts: seq<seq<nat>>)
    requires |lens| == 3 && forall i :: 0 <= i < 3 ==> lens[i] == 3
    requires ExactlyOnce(parts, 3) && AllInside(parts, 3) && |parts| == 2
    ensures !CapHolds(lens, parts, 5)
  {
    var loads := Loads(lens, parts);
    LoadsTotal(lens, parts);
    SumOfEqual(lens, 3);
    SumOfEqual(At(lens, parts[0]), 3);
    SumOfEqual(At(lens, parts[1]), 3);
    SumAppend(loads[..1], loads);
    SumAppend([], loads[..1]);
  }

  /** Rearranging succeeds, and some micro-batch has more tokens than maxTokens. */
  ghost predicate CapBroken(lens: seq<int>, maxSeqLen: int, maxTokens: int, o: CountOptions, balance: bool) {
    && NonNegative(lens)
    && var r := Rearrange(lens, maxSeqLen, maxTokens, o, balance);
       r.Ok? && AllInside(r.parts, |lens|) && !CapHolds(lens, r.parts, maxTokens)
  }

  lemma ThreesBreakCap(lens: seq<int>, maxTokens: int, o: CountOptions, balance: bool)
    requires |lens| == 3 && forall i :: 0 <= i < 3 ==> lens[i] == 3
    requires maxTokens == 5 && o == CountOptions(None, None, None)
    ensures CapBroken(lens, 3, maxTokens, o, balance)
  {
    SumOfEqual(lens, 3);
    assert MicroCount(3, 9, maxTokens, o) == 2;
    RearrangeSucceeds(lens, 3, maxTokens, o, balance);
    RearrangeCovers(lens, 3, maxTokens, o, balance);
    ThreesInTwo(lens, Rearrange(lens, 3, maxTokens, o, balance).parts);
  }

  const THREES: seq<int> := [3, 3, 3]
  const FIVE := 5
  const NO_OPTIONS := CountOptions(None, None, None)

  /** maxTokens sets how many micro-batches there are; it does not cap their tokens. Three rows
      of three tokens under a cap of five make two micro-batches, and one of them has six. */
  lemma TokenCapCanFail(balance: bool)
    ensures CapBroken(THREES, 3, FIVE, NO_OPTIONS, balance)
  {
    ThreesBreakCap(THREES, FIVE, NO_OPTIONS, balance);
  }

  lemma OneRowEach(lens: seq<int>, parts: seq<seq<nat>>, maxTokens: int)
    requires ExactlyOnce(parts, |lens|) && AllInside(parts, |lens|) && |parts| == |lens|
    requires forall m :: 0 <= m < |parts| ==> parts[m] != []
    requires forall i :: 0 <= i < |lens| ==> lens[i] <= maxTokens
    ensures CapHolds(lens, parts, maxTokens)
  {
    SizesTotal(parts);
    assert |multiset(Flatten(parts))| == |multiset(Range(|lens|))|;
    forall m: nat | m < |parts|
      ensures Load(lens, parts[m]) <= maxTokens
    {
      AllOnes(Sizes(parts), m);
      SumAppend([], At(lens, parts[m]));
    }
  }

  lemma OneForAll(lens: seq<int>, parts: seq<seq<nat>>, maxTokens: int)
    requires ExactlyOnce(parts, |lens|) && AllInside(parts, |lens|) && |parts| == 1
    requires Sum(lens) <= maxTokens
    ensures CapHolds(lens, parts, maxTokens)
  {
    var loads := Loads(lens, parts);
    LoadsTotal(lens, parts);
    SumAppend([], loads);
  }

  lemma NoneIsEmpty(lens: seq<int>, maxSeqLen: int, maxTokens: int, o: CountOptions, balance: bool)
    requires NonNegative(lens) && Rearrange(lens, maxSeqLen, maxTokens, o, balance).Ok?
    ensures var parts := Rearrange(lens, maxSeqLen, maxTokens, o, balance).parts;
            forall m :: 0 <= m < |parts| ==> parts[m] != []
  {
    var parts := Rearrange(lens, maxSeqLen, maxTokens, o, balance).parts;
    var w := SomeWidth(Workloads(lens));
    assert forall i :: 0 <= i < |lens| ==> Workload(lens[i]) == Workloads(lens)[i];
    forall m: nat | m < |parts|
      ensures parts[m] != []
    {
      RearrangeBounds(lens, maxSeqLen, maxTokens, o, balance, w, m);
    }
  }

  lemma OneIsEnough(lens: seq<int>, maxTokens: int, o: CountOptions)
    requires maxTokens >= 1 && forall i :: 0 <= i < |lens| ==> lens[i] <= maxTokens
    requires o.dividedBy.Some? ==> o.dividedBy.value >= 1
    requires MicroCount(|lens|, Sum(lens), maxTokens, o) == 1
    ensures Sum(lens) <= maxTokens
  {
    MicroCountEnough(lens, maxTokens, o);
  }

  /** Arguments a caller may pass: no row is wider than the batch, the batch is no wider than
      maxTokens, and a divisor, if there is one, is positive. */
  ghost predicate Callable(lens: seq<int>, maxSeqLen: int, maxTokens: int, o: CountOptions) {
    && NonNegative(lens) && (forall i :: 0 <= i < |lens| ==> lens[i] <= maxSeqLen)
    && maxSeqLen <= maxTokens && maxTokens >= 1
    && (o.dividedBy.Some? ==> o.dividedBy.value >= 1)
  }

  ghost predicate CapKept(lens: seq<int>, maxSeqLen: int, maxTokens: int, o: CountOptions, balance: bool)
    requires NonNegative(lens)
  {
    var r := Rearrange(lens, maxSeqLen, maxTokens, o, balance);
    r.Ok? && AllInside(r.parts, |lens|) && CapHolds(lens, r.parts, maxTokens)
  }

  /** With one micro-batch, or one per row, the cap does hold. */
  lemma TokenCapAtTheEnds(lens: seq<int>, maxSeqLen: int, maxTokens: int, o: CountOptions, balance: bool)
    requires Callable(lens, maxSeqLen, maxTokens, o) && lens != []
    requires MicroCount(|lens|, Sum(lens), maxTokens, o) in {1, |lens|}
    ensures CapKept(lens, maxSeqLen, maxTokens, o, balance)
  {
    var r := Rearrange(lens, maxSeqLen, maxTokens, o, balance);
    RearrangeSucceeds(lens, maxSeqLen, maxTokens, o, balance);
    RearrangeCovers(lens, maxSeqLen, maxTokens, o, balance);
    if |r.parts| == 1 {
      OneIsEnough(lens, maxTokens, o);
      OneForAll(lens, r.parts, maxTokens);
    } else {
      NoneIsEmpty(lens, maxSeqLen, maxTokens, o, balance);
      OneRowEach(lens, r.parts, maxTokens);
    }
  }

  /** The cap holds whatever the rows, the cap and the options, as long as n rows make k
      micro-batches. */
  ghost predicate CapAlways(n: nat, k: int) {
    forall lens: seq<int>, maxSeqLen: int, maxTokens: int, o: CountOptions, balance: bool ::
      |lens| == n && Callable(lens, maxSeqLen, maxTokens, o)
      && MicroCount(n, Sum(lens), maxTokens, o) == k
      ==> CapKept(lens, maxSeqLen, maxTokens, o, balance)
  }

  /** Rows whose lengths are multiples of k, with k * cap tokens in all, where the cap is not a
      multiple of k: n rows of k tokens, the first one doubled when k divides n. */
  function Lumps(n: nat, k: nat): (lens: seq<int>)
    requires k >= 1
    ensures |lens| == n
  {
    seq(n, i => if i == 0 && n % k == 0 then 2 * k else k)
  }

  function LumpsCap(n: nat, k: nat): int
    requires k >= 1
  {
    if n % k == 0 then n + 1 else n
  }

  lemma LumpsTotal(n: nat, k: nat)
    requires n >= 1 && k >= 1
    ensures Sum(Lumps(n, k)) == LumpsCap(n, k) * k
  {
    var even := seq(n, i => k);
    SumOfEqual(even, k);
    if n % k == 0 {
      assert Lumps(n, k) == even[0 := 2 * k];
      SumUpdate(even, 0, 2 * k);
      assert (n + 1) * k == n * k + k;
    } else {
      assert Lumps(n, k) == even;
    }
  }

  lemma LumpsCapIsNoMultiple(n: nat, k: nat)
    requires k >= 2
    ensures LumpsCap(n, k) % k != 0
  {
    if n % k == 0 {
      var q := n / k;
      assert n == k * q;
      if (n + 1) % k == 0 {
        var m := (n + 1) / k;
        assert n + 1 == k * m;
        assert k * (m - q) == k * m - k * q;
        SmallMultiple(m - q, k);
      }
    }
  }

  lemma LumpsFit(n: nat, k: nat)
    requires 2 <= k < n
    ensures Callable(Lumps(n, k), LumpsCap(n, k), LumpsCap(n, k), NO_OPTIONS)
  {
    if n % k == 0 {
      var q := n / k;
      assert n == k * q;
      if q <= 1 {
        ProductMonotone(k, q, 1);
      } else {
        ProductMonotone(k, 2, q);
      }
    }
  }

  lemma LumpsCount(n: nat, k: nat, total: int, cap: int, o: CountOptions)
    requires k < n && cap >= 1 && total == cap * k && o == CountOptions(None, None, None)
    ensures MicroCount(n, total, cap, o) == k
  {
    CeilDivIsLeast(total, cap, k);
    CeilDivIsLeast(total, cap, k - 1);
    assert (k - 1) * cap == total - cap;
  }

  lemma {:induction false} SumMultiple(s: seq<int>, k: nat) returns (m: int)
    requires forall i :: 0 <= i < |s| ==> s[i] == k || s[i] == 2 * k
    ensures Sum(s) == m * k
  {
    m := 0;
    if s != [] {
      var before := SumMultiple(s[..|s| - 1], k);
      var last := s[|s| - 1];
      m := before + if last == k then 1 else 2;
      assert (before + 1) * k == before * k + k && (before + 2) * k == before * k + 2 * k;
    }
  }

  /** Loads that add up to as many caps as there are, none above the cap, are all the cap. */
  lemma AllAtCap(loads: seq<int>, cap: int)
    requires loads != [] && Sum(loads) == |loads| * cap
    requires forall i :: 0 <= i < |loads| ==> loads[i] <= cap
    ensures loads[0] == cap
  {
    SumSplit(loads, 0);
    SumAtMost(loads[1..], cap);
    assert |loads| * cap == (|loads| - 1) * cap + cap;
  }

  /** Where the parts hold as many caps as there are parts, the cap can only hold if they are full. */
  lemma FullLoads(lens: seq<int>, parts: seq<seq<nat>>, cap: int)
    requires ExactlyOnce(parts, |lens|) && AllInside(parts, |lens|) && parts != [] && CapHolds(lens, parts, cap)
    requires Sum(lens) == |parts| * cap
    ensures Load(lens, parts[0]) == cap
  {
    LoadsTotal(lens, parts);
    AllAtCap(Loads(lens, parts), cap);
  }

  lemma LumpsOverCap(n: nat, k: nat, lens: seq<int>, cap: int, parts: seq<seq<nat>>)
    requires 2 <= k && n >= 1 && lens == Lumps(n, k) && cap == LumpsCap(n, k)
    requires ExactlyOnce(parts, |lens|) && AllInside(parts, |lens|) && |parts| == k
    ensures !CapHolds(lens, parts, cap)
  {
    var m := SumMultiple(At(lens, parts[0]), k);
    NoRemainder(m, k);
    LumpsCapIsNoMultiple(n, k);
    if CapHolds(lens, parts, cap) {
      LumpsTotal(n, k);
      FullLoads(lens, parts, cap);
    }
  }

  /** Between the ends some batch breaks the cap. */
  lemma LumpsBreakCap(n: nat, k: nat, lens: seq<int>, cap: int, o: CountOptions)
    requires 2 <= k < n && lens == Lumps(n, k) && cap == LumpsCap(n, k) && o == CountOptions(None, None, None)
    ensures Callable(lens, cap, cap, o) && MicroCount(n, Sum(lens), cap, o) == k
    ensures !CapKept(lens, cap, cap, o, false)
  {
    LumpsFit(n, k);
    LumpsTotal(n, k);
    LumpsCount(n, k, Sum(lens), cap, o);
    if Rearrange(lens, cap, cap, o, false).Ok? {
      RearrangeCovers(lens, cap, cap, o, false);
      LumpsOverCap(n, k, lens, cap, Rearrange(lens, cap, cap, o, false).parts);
    }
  }

  /** Exactly when the number of rows and of micro-batches alone make the cap hold: one
      micro-batch in all, or one per row. */
  lemma TokenCapExactly(n: nat, k: int)
    requires 1 <= k <= n
    ensures CapAlways(n, k) <==> k == 1 || k == n
  {
    if 1 < k < n {
      LumpsBreakCap(n, k, Lumps(n, k), LumpsCap(n, k), CountOptions(None, None, None));
    } else {
      forall lens: seq<int>, maxSeqLen: int, maxTokens: int, o: CountOptions, balance: bool
        | |lens| == n && Callable(lens, maxSeqLen, maxTokens, o)
          && MicroCount(n, Sum(lens), maxTokens, o) == k
        ensures CapKept(lens, maxSeqLen, maxTokens, o, balance)
      {
        TokenCapAtTheEnds(lens, maxSeqLen, maxTokens, o, balance);
      }
    }
  }

  lemma BelowNext(k: int, load: int, cap: int, total: int)
    requires k >= 1 && k * (24576 * load) <= total < k * (24576 * (cap + 1))
    ensures load <= cap
  {
    if load >= cap + 1 {
      ProductMonotone(k, 24576 * (cap + 1), 24576 * load);
    }
  }

  /** The bound on the balance of k parts stays below the workload of one token more than the cap. */
  ghost predicate BalanceFits(lens: seq<int>, k: int, w: int, maxTokens: int) {
    Sum(Workloads(lens)) + (k - 1) * w < k * (24576 * (maxTokens + 1))
  }

  lemma PartFits(lens: seq<int>, k: int, w: int, maxTokens: int, part: seq<nat>)
    requires k >= 1 && PartBound(lens, k, w, part) && BalanceFits(lens, k, w, maxTokens)
    ensures Load(lens, part) <= maxTokens
  {
    BelowNext(k, Load(lens, part), maxTokens, Sum(Workloads(lens)) + (k - 1) * w);
  }

  /** For one batch: where that bound fits, the cap holds. */
  lemma TokenCapFromBalance(lens: seq<int>, maxSeqLen: int, maxTokens: int, o: CountOptions, balance: bool, w: int)
    requires Callable(lens, maxSeqLen, maxTokens, o)
    requires forall i :: 0 <= i < |lens| ==> Workload(lens[i]) <= w
    requires 1 <= MicroCount(|lens|, Sum(lens), maxTokens, o) <= |lens|
    requires BalanceFits(lens, MicroCount(|lens|, Sum(lens), maxTokens, o), w, maxTokens)
    ensures CapKept(lens, maxSeqLen, maxTokens, o, balance)
  {
    RearrangeSucceeds(lens, maxSeqLen, maxTokens, o, balance);
    RearrangeCovers(lens, maxSeqLen, maxTokens, o, balance);
    var parts := Rearrange(lens, maxSeqLen, maxTokens, o, balance).parts;
    forall m: nat | m < |parts|
      ensures Load(lens, parts[m]) <= maxTokens
    {
      RearrangeBounds(lens, maxSeqLen, maxTokens, o, balance, w, m);
      PartFits(lens, |parts|, w, maxTokens, parts[m]);
    }
  }
}
