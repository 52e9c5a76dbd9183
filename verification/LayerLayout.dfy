/** Layers laid out over stages: stage r of every round holds sizes[r] consecutive layers, and
    the rounds follow each other. */
module LayerLayout {
  import opened IntSeqs

  ghost predicate AllNonNegative(sizes: seq<int>) {
    forall r :: 0 <= r < |sizes| ==> sizes[r] >= 0
  }

  /** First layer of stage r within a round. */
  function Prefix(sizes: seq<int>, r: nat): int
    requires r <= |sizes|
  {
    Sum(sizes[..r])
  }

  lemma PrefixStep(sizes: seq<int>, r: nat)
    requires r < |sizes|
    ensures Prefix(sizes, r + 1) == Prefix(sizes, r) + sizes[r]
  {
    SumAppend(sizes[..r], sizes[..r + 1]);
  }

  lemma {:induction false} PrefixMonotone(sizes: seq<int>, a: nat, b: nat)
    requires AllNonNegative(sizes) && a <= b <= |sizes|
    ensures Prefix(sizes, a) <= Prefix(sizes, b)
  {
    if a < b {
      PrefixMonotone(sizes, a, b - 1);
      PrefixStep(sizes, b - 1);
    }
  }

  /** Where layer `local` of stage r in round v ends up. */
  function Global(sizes: seq<int>, v: int, r: nat, local: int): int
    requires r <= |sizes|
  {
    v * Sum(sizes) + Prefix(sizes, r) + local
  }

  ghost predicate Place(sizes: seq<int>, rounds: int, v: int, r: int, local: int) {
    0 <= v < rounds && 0 <= r < |sizes| && 0 <= local < sizes[r]
  }

  lemma {:induction false} FindStage(sizes: seq<int>, x: int) returns (r: nat, local: int)
    requires AllNonNegative(sizes) && 0 <= x < Sum(sizes)
    ensures r < |sizes| && 0 <= local < sizes[r] && Prefix(sizes, r) + local == x
  {
    var last := |sizes| - 1;
    if x >= Prefix(sizes, last) {
      r, local := last, x - Prefix(sizes, last);
    } else {
      r, local := FindStage(sizes[..last], x);
      assert sizes[..last][..r] == sizes[..r];
    }
  }

  lemma WithinRound(sizes: seq<int>, r: nat, local: int)
    requires AllNonNegative(sizes) && r < |sizes| && 0 <= local < sizes[r]
    ensures 0 <= Prefix(sizes, r) + local < Sum(sizes)
  {
    PrefixMonotone(sizes, 0, r);
    PrefixStep(sizes, r);
    PrefixMonotone(sizes, r + 1, |sizes|);
    assert sizes[..|sizes|] == sizes;
  }

  /** Every place is a layer number in range, ... */
  lemma PlaceInRange(sizes: seq<int>, rounds: nat, v: int, r: int, local: int)
    requires AllNonNegative(sizes) && Place(sizes, rounds, v, r, local)
    ensures 0 <= Global(sizes, v, r, local) < rounds * Sum(sizes)
  {
    var t := Sum(sizes);
    WithinRound(sizes, r, local);
    ProductMonotone(t, 0, v);
    ProductMonotone(t, v + 1, rounds);
    assert t * (v + 1) == v * t + t;
  }

  /** ... every layer number in range has a place, ... */
  lemma LayerHasPlace(sizes: seq<int>, rounds: nat, g: int) returns (v: int, r: nat, local: int)
    requires AllNonNegative(sizes) && 0 <= g < rounds * Sum(sizes)
    ensures Place(sizes, rounds, v, r, local) && Global(sizes, v, r, local) == g
  {
    var t := Sum(sizes);
    SumNonNegative(sizes);
    assert t > 0;
    v := g / t;
    assert g == v * t + g % t;
    if v >= rounds {
      ProductMonotone(t, rounds, v);
    }
    r, local := FindStage(sizes, g % t);
  }

  /** ... and no two places share one. */
  lemma PlacesDiffer(sizes: seq<int>, rounds: nat, v: int, r: int, local: int, v': int, r': int, local': int)
    requires AllNonNegative(sizes)
    requires Place(sizes, rounds, v, r, local) && Place(sizes, rounds, v', r', local')
    requires Global(sizes, v, r, local) == Global(sizes, v', r', local')
    ensures v == v' && r == r' && local == local'
  {
    var t := Sum(sizes);
    WithinRound(sizes, r, local);
    WithinRound(sizes, r', local');
    var d := Prefix(sizes, r) + local - (Prefix(sizes, r') + local');
    assert t * (v' - v) == d;
    if d >= 0 {
      SmallMultiple(v' - v, t);
    } else {
      assert t * (v - v') == -d;
      SmallMultiple(v - v', t);
    }
    SameStage(sizes, r, local, r', local');
    SameStage(sizes, r', local', r, local);
  }

  lemma SameStage(sizes: seq<int>, r: nat, local: int, r': nat, local': int)
    requires AllNonNegative(sizes) && r < |sizes| && r' < |sizes|
    requires 0 <= local < sizes[r] && 0 <= local' < sizes[r']
    requires Prefix(sizes, r) + local == Prefix(sizes, r') + local'
    ensures r >= r'
  {
    if r < r' {
      PrefixStep(sizes, r);
      PrefixMonotone(sizes, r + 1, r');
    }
  }
}
