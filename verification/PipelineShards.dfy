/** The search for pipeline stage sizes, and the layer numbers the merger gives each stage. */
module PipelineShards {
  import opened IntSeqs
  import opened LayerLayout

  datatype Shards = Sizes(sizes: seq<int>) | ValueError | IndexError

  /** A layout of the search: first, middle and last stage sizes, and how far the ends are off. */
  datatype Candidate = Candidate(shards: seq<int>, diff: int)

  function Layout(layers: int, pp: nat, middle: int): (s: seq<int>)
    requires pp >= 3
    ensures |s| == pp
  {
    var ends := layers - middle * (pp - 2);
    [ends / 2] + seq(pp - 2, _ => middle) + [ends - ends / 2]
  }

  predicate Fits(layers: int, pp: nat, middle: int)
    requires pp >= 3
  {
    var ends := layers - middle * (pp - 2);
    0 < ends / 2 <= middle && 0 < ends - ends / 2 <= middle
  }

  function CandidateAt(layers: int, pp: nat, middle: int): Candidate
    requires pp >= 3
  {
    var first := (layers - middle * (pp - 2)) / 2;
    Candidate(Layout(layers, pp, middle), if first >= middle then first - middle else middle - first)
  }

  /** The candidates among middle sizes below m, in the order they are found. */
  function Candidates(layers: int, pp: nat, m: nat): seq<Candidate>
    requires pp >= 3
  {
    if m == 0 then []
    else
      Candidates(layers, pp, m - 1) +
      if Fits(layers, pp, m - 1) then [CandidateAt(layers, pp, m - 1)] else []
  }

  /** The first of those with the least diff: head of a stable sort. */
  function FirstLeast(cs: seq<Candidate>, n: nat): (i: nat)
    requires 1 <= n <= |cs|
    ensures i < n
  {
    if n == 1 then 0
    else
      var i := FirstLeast(cs, n - 1);
      if cs[n - 1].diff < cs[i].diff then n - 1 else i
  }

  function DynamicShards(layers: int, pp: int): Shards {
    if layers < pp || pp < 1 then ValueError
    else if pp == 1 then Sizes([layers])
    else if pp == 2 then Sizes([layers / 2, layers - layers / 2])
    else
      var cs := Candidates(layers, pp, layers);
      if cs == [] then IndexError else Sizes(cs[FirstLeast(cs, |cs|)].shards)
  }

  // --------------------------------------------------------------------------
  // What the search finds
  // --------------------------------------------------------------------------

  /** layers / pp rounded up. */
  function Ceil(layers: int, pp: int): int
    requires pp >= 1
  {
    (layers + pp - 1) / pp
  }

  lemma CeilIs(layers: int, pp: int, m: int)
    requires pp >= 1
    ensures m >= Ceil(layers, pp) <==> m * pp >= layers
  {
    var c := Ceil(layers, pp);
    assert layers + pp - 1 == c * pp + (layers + pp - 1) % pp;
    if m >= c {
      ProductMonotone(pp, c, m);
    } else {
      ProductMonotone(pp, m, c - 1);
      assert pp * (c - 1) == c * pp - pp;
    }
  }

  /** A middle size fits exactly from the rounded-up average on, while the ends keep two layers. */
  lemma FitsExactly(layers: int, pp: nat, middle: int)
    requires pp >= 3
    ensures Fits(layers, pp, middle) <==>
            middle >= Ceil(layers, pp) && layers - middle * (pp - 2) >= 2
  {
    CeilIs(layers, pp, middle);
    assert middle * pp == middle * (pp - 2) + 2 * middle;
  }

  lemma WiderLeavesLess(layers: int, pp: nat, a: int, b: int)
    requires pp >= 3 && a <= b
    ensures layers - b * (pp - 2) <= layers - a * (pp - 2)
  {
    ProductMonotone(pp - 2, a, b);
  }

  /** The search fails below the rounded-up average c, and everywhere if c leaves the ends too
      little; otherwise c is the first candidate and every later one has a larger diff. */
  lemma {:induction false} CandidatesAre(layers: int, pp: nat, m: nat)
    requires pp >= 3
    ensures var c := Ceil(layers, pp);
            var cs := Candidates(layers, pp, m);
            if m <= c || layers - c * (pp - 2) < 2 then cs == []
            else cs != [] && cs[0] == CandidateAt(layers, pp, c) &&
                 forall j :: 0 < j < |cs| ==> cs[j].diff > cs[0].diff
  {
    if m > 0 {
      CandidatesAre(layers, pp, m - 1);
      var c := Ceil(layers, pp);
      FitsExactly(layers, pp, m - 1);
      if m - 1 >= c {
        WiderLeavesLess(layers, pp, c, m - 1);
        FitsExactly(layers, pp, c);
      }
    }
  }

  lemma {:induction false} FirstIsLeast(cs: seq<Candidate>, n: nat)
    requires 1 <= n <= |cs| && forall j :: 0 < j < |cs| ==> cs[j].diff > cs[0].diff
    ensures FirstLeast(cs, n) == 0
  {
    if n > 1 {
      FirstIsLeast(cs, n - 1);
    }
  }

  lemma CeilBelow(layers: int, pp: nat)
    requires layers >= pp >= 3
    ensures 1 <= Ceil(layers, pp) < layers
  {
    CeilIs(layers, pp, 0);
    CeilIs(layers, pp, layers - 1);
    ProductMonotone(layers - 1, 2, pp);
  }

  /** For three stages or more the search succeeds exactly when middle stages of the rounded-up
      average leave at least two layers for the ends, and then it returns that layout. */
  lemma SearchFinds(layers: int, pp: nat)
    requires layers >= pp >= 3
    ensures var c := Ceil(layers, pp);
            DynamicShards(layers, pp) ==
            if layers - c * (pp - 2) >= 2 then Sizes(Layout(layers, pp, c)) else IndexError
  {
    var c := Ceil(layers, pp);
    CeilBelow(layers, pp);
    CandidatesAre(layers, pp, layers);
    var cs := Candidates(layers, pp, layers);
    if cs != [] {
      FirstIsLeast(cs, |cs|);
    }
  }

  /** The promise to make the sharding as uniform as possible can end in an exception instead:
      five layers on four ranks. */
  lemma SearchCanFail()
    ensures DynamicShards(5, 4) == IndexError
  {
    SearchFinds(5, 4);
  }

  lemma MiddleSum(n: nat, m: int)
    ensures Sum(seq(n, _ => m)) == n * m
  {
    SumOfEqual(seq(n, _ => m), m);
  }

  lemma LayoutPrefix(layers: int, pp: nat, middle: int, r: nat)
    requires pp >= 3 && r <= pp
    ensures Prefix(Layout(layers, pp, middle), r) ==
            if r == 0 then 0
            else if r < pp then (layers - middle * (pp - 2)) / 2 + (r - 1) * middle
            else layers
  {
    var s := Layout(layers, pp, middle);
    var first := (layers - middle * (pp - 2)) / 2;
    if r > 0 {
      var n := if r < pp then r - 1 else pp - 2;
      assert s[..n + 1] == [first] + seq(n, _ => middle);
      MiddleSum(n, middle);
      SumConcat([first], seq(n, _ => middle));
      SumAppend([], [first]);
      if r == pp {
        PrefixStep(s, pp - 1);
        assert n * middle == middle * (pp - 2);
      }
    }
  }

  ghost predicate ValidSizes(s: seq<int>, layers: int, pp: int) {
    && |s| == pp && Sum(s) == layers
    && (forall r :: 0 <= r < pp ==> s[r] > 0)
    && (pp >= 3 ==> forall r :: 0 < r < pp - 1 ==> s[0] <= s[r] && s[pp - 1] <= s[r])
  }

  lemma LayoutValid(layers: int, pp: nat, middle: int)
    requires pp >= 3 && Fits(layers, pp, middle)
    ensures ValidSizes(Layout(layers, pp, middle), layers, pp)
  {
    var s := Layout(layers, pp, middle);
    LayoutPrefix(layers, pp, middle, pp);
    assert s[..pp] == s;
  }

  /** Whatever is returned: one positive size per rank, adding up to all layers, and with three
      ranks or more no end larger than the middle. */
  lemma ShardsAreValid(layers: int, pp: int)
    requires DynamicShards(layers, pp).Sizes?
    ensures ValidSizes(DynamicShards(layers, pp).sizes, layers, pp)
  {
    var s := DynamicShards(layers, pp).sizes;
    if pp == 1 {
      SumAppend([], s);
    } else if pp == 2 {
      SumAppend(s[..1], s);
      SumAppend([], s[..1]);
    } else {
      var c := Ceil(layers, pp);
      SearchFinds(layers, pp);
      CeilBelow(layers, pp);
      FitsExactly(layers, pp, c);
      LayoutValid(layers, pp, c);
    }
  }

  // --------------------------------------------------------------------------
  // The runs
  // --------------------------------------------------------------------------

  method FindFirstLeast(cs: seq<Candidate>) returns (least: nat)
    requires cs != []
    ensures least < |cs| && least == FirstLeast(cs, |cs|)
  {
    least := 0;
    var n := 1;
    while n < |cs|
      invariant 1 <= n <= |cs| && least == FirstLeast(cs, n)
    {
      if cs[n].diff < cs[least].diff {
        least := n;
      }
      n := n + 1;
    }
  }

  /** `get_dynamic_pipeline_shards` itself. */
  method GetDynamicPipelineShards(layers: int, pp: int) returns (r: Shards)
    ensures r == DynamicShards(layers, pp)
  {
    if layers < pp {
      return ValueError;
    }
    if pp < 1 {
      return ValueError;
    }
    if pp == 1 {
      return Sizes([layers]);
    }
    if pp == 2 {
      return Sizes([layers / 2, layers - layers / 2]);
    }
    var strategies := [];
    var middle := 0;
    while middle < layers
      invariant 0 <= middle <= layers
      invariant strategies == Candidates(layers, pp, middle)
    {
      var ends := layers - middle * (pp - 2);
      var first := ends / 2;
      var last := ends - ends / 2;
      if 0 < first <= middle && 0 < last <= middle {
        var diff := if first >= middle then first - middle else middle - first;
        strategies := strategies + [Candidate([first] + seq(pp - 2, _ => middle) + [last], diff)];
      }
      middle := middle + 1;
    }
    if strategies == [] {
      return IndexError;
    }
    var least := FindFirstLeast(strategies);
    return Sizes(strategies[least].shards);
  }
}
