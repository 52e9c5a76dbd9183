/** First layer of a pipeline stage, with and without interleaving, even and uneven, and the
    layout it numbers. */
module LayerOffset {
  import opened IntSeqs
  import opened LayerLayout
  import opened Options
  import opened PipelineShards

  /** The fields of the transformer configuration that the offset depends on. */
  datatype Config = Config(layers: nat, pp: nat, vp: Option<nat>, first: Option<nat>, last: Option<nat>)

  function OrZero(o: Option<nat>): nat {
    if o.Some? then o.value else 0
  }

  function Count(o: Option<nat>): nat {
    if o.Some? then 1 else 0
  }

  /** Stages that are neither a given first nor a given last one. */
  function MiddleStages(c: Config): int {
    c.pp - Count(c.first) - Count(c.last)
  }

  function MiddleLayers(c: Config): int {
    c.layers - OrZero(c.first) - OrZero(c.last)
  }

  /** `get_transformer_layer_offset`; None is a missing virtual stage or a division by zero. */
  function Offset(c: Config, rank: nat, stage: Option<nat>): Option<int> {
    if c.pp <= 1 then Some(0)
    else if c.first.Some? || c.last.Some? then
      if c.vp.Some? then
        if stage.None? || c.vp.value == 0 then None
        else
          var inFirst := OrZero(c.first) / c.vp.value;
          var inLast := OrZero(c.last) / c.vp.value;
          var inMiddle := MiddleLayers(c) / c.vp.value;
          var round := inFirst + inMiddle + inLast;
          if rank == 0 then Some(stage.value * round)
          else if MiddleStages(c) == 0 then None
          else Some(stage.value * round + inFirst + (rank - 1) * FloorDiv(inMiddle, MiddleStages(c)))
      else
        var each := if MiddleStages(c) > 0 then MiddleLayers(c) / MiddleStages(c) else 0;
        var middleRank := if c.first.None? then rank else rank - 1;
        if rank == 0 then Some(0) else Some(middleRank * each + OrZero(c.first))
    else
      var each := c.layers / c.pp;
      if c.vp.Some? then
        if stage.None? || c.vp.value == 0 then None
        else Some(stage.value * (c.layers / c.vp.value) + rank * (each / c.vp.value))
      else Some(rank * each)
  }

  // --------------------------------------------------------------------------
  // The layout it should number
  // --------------------------------------------------------------------------

  /** How many rounds the layers are dealt in, and how many go to each middle stage per round. */
  datatype Deal = Deal(rounds: nat, first: nat, each: nat, last: nat)

  /** The configuration divides evenly: `d` is what each stage gets per round. */
  ghost predicate Divides(c: Config, d: Deal) {
    && c.pp >= 1 && d.rounds >= 1 && MiddleStages(c) >= 0
    && (c.vp.Some? ==> d.rounds == c.vp.value) && (c.vp.None? ==> d.rounds == 1)
    && OrZero(c.first) == d.rounds * d.first && OrZero(c.last) == d.rounds * d.last
    && MiddleLayers(c) == d.rounds * (MiddleStages(c) * d.each)
  }

  function OneOrNone(o: Option<nat>, size: int): (s: seq<int>) {
    if o.Some? then [size] else []
  }

  /** Layers per stage and round: the given ends, and the middle share for all others. */
  function StageSizes(c: Config, d: Deal): (s: seq<int>)
    requires MiddleStages(c) >= 0
  {
    OneOrNone(c.first, d.first) + seq(MiddleStages(c), _ => d.each) + OneOrNone(c.last, d.last)
  }

  lemma SumOneOrNone(o: Option<nat>, size: int)
    ensures Sum(OneOrNone(o, size)) == if o.Some? then size else 0
  {
    SumAppend([], [size]);
  }

  lemma DealtPrefix(head: seq<int>, k: nat, each: int, ends: seq<int>, r: nat)
    requires |head| <= 1 && |ends| <= 1 && 0 < r <= |head| + k + |ends|
    ensures var s := head + seq(k, _ => each) + ends;
            Prefix(s, r) == if r <= |head| + k then Sum(head) + (r - |head|) * each
                            else Sum(head) + k * each + Sum(ends)
  {
    var middle: seq<int> := seq(k, _ => each);
    var s := head + middle + ends;
    if r <= |head| + k {
      var n := r - |head|;
      var some: seq<int> := seq(n, _ => each);
      assert s[..r] == head + some;
      SumConcat(head, some);
      MiddleSum(n, each);
    } else {
      assert s[..r] == s;
      SumConcat(head + middle, ends);
      SumConcat(head, middle);
      MiddleSum(k, each);
    }
  }

  lemma SizesCount(c: Config, d: Deal)
    requires MiddleStages(c) >= 0
    ensures |StageSizes(c, d)| == c.pp && AllNonNegative(StageSizes(c, d))
  {
  }

  lemma SizesPrefix(c: Config, d: Deal, r: nat)
    requires MiddleStages(c) >= 0 && r <= c.pp
    ensures |StageSizes(c, d)| == c.pp && AllNonNegative(StageSizes(c, d))
    ensures Prefix(StageSizes(c, d), r) ==
            if r == 0 then 0
            else if r <= MiddleStages(c) + Count(c.first) then
              (if c.first.Some? then d.first else 0) + (r - Count(c.first)) * d.each
            else (if c.first.Some? then d.first else 0) + MiddleStages(c) * d.each + d.last
  {
    SizesCount(c, d);
    SumOneOrNone(c.first, d.first);
    SumOneOrNone(c.last, d.last);
    if r > 0 {
      DealtPrefix(OneOrNone(c.first, d.first), MiddleStages(c), d.each, OneOrNone(c.last, d.last), r);
    }
  }

  lemma Quotient(a: int, k: int)
    requires k >= 1
    ensures (k * a) / k == a
  {
    NoRemainder(a, k);
    assert k * a == a * k;
  }

  lemma SwapFactors(a: int, b: int, e: int)
    ensures a * (b * e) == b * (a * e)
  {
  }

  lemma SizesSum(c: Config, d: Deal)
    requires MiddleStages(c) >= 0
    ensures Sum(StageSizes(c, d)) ==
            (if c.first.Some? then d.first else 0) + MiddleStages(c) * d.each + if c.last.Some? then d.last else 0
  {
    var head, middle, ends := OneOrNone(c.first, d.first), seq(MiddleStages(c), _ => d.each), OneOrNone(c.last, d.last);
    SumConcat(head + middle, ends);
    SumConcat(head, middle);
    MiddleSum(MiddleStages(c), d.each);
    SumOneOrNone(c.first, d.first);
    SumOneOrNone(c.last, d.last);
  }

  lemma AllRounds(k: nat, first: nat, m: int, last: nat, total: int)
    requires total == k * first + k * m + k * last
    ensures k * (first + m + last) == total
  {
    assert k * ((first + m) + last) == k * (first + m) + k * last;
  }

  /** A round holds every stage's share, and the rounds hold all layers. */
  lemma SizesTotal(c: Config, d: Deal)
    requires MiddleStages(c) >= 0 && Divides(c, d)
    ensures Sum(StageSizes(c, d)) ==
            (if c.first.Some? then d.first else 0) + MiddleStages(c) * d.each + if c.last.Some? then d.last else 0
    ensures c.pp >= 1 && (c.first.None? ==> d.first == 0) && (c.last.None? ==> d.last == 0)
    ensures d.rounds * Sum(StageSizes(c, d)) == c.layers
  {
    SizesSum(c, d);
    if c.first.None? {
      ZeroShare(d.rounds, d.first);
    }
    if c.last.None? {
      ZeroShare(d.rounds, d.last);
    }
    AllRounds(d.rounds, d.first, MiddleStages(c) * d.each, d.last, c.layers);
  }

  lemma ZeroShare(k: nat, a: nat)
    requires k >= 1 && k * a == 0
    ensures a == 0
  {
  }

  ghost predicate Uneven(c: Config) {
    c.first.Some? || c.last.Some?
  }

  /** The interleaved uneven branch numbers stages as if a first stage size were given. */
  ghost predicate Numbered(c: Config, d: Deal, rank: nat) {
    Uneven(c) && c.vp.Some? && rank > 0 ==> MiddleStages(c) > 0 && (c.first.Some? || d.each == 0)
  }

  lemma OffsetInterleavedUneven(c: Config, d: Deal, rank: nat, v: nat)
    requires MiddleStages(c) >= 0 && Divides(c, d) && c.pp > 1 && rank < c.pp && v < d.rounds
    requires Uneven(c) && c.vp.Some?
    ensures |StageSizes(c, d)| == c.pp
    ensures Offset(c, rank, Some(v)) == Some(Global(StageSizes(c, d), v, rank, 0)) <==> Numbered(c, d, rank)
  {
    var m := MiddleStages(c);
    SizesTotal(c, d);
    SizesPrefix(c, d, rank);
    Quotient(d.first, d.rounds);
    Quotient(d.last, d.rounds);
    Quotient(m * d.each, d.rounds);
    if m > 0 {
      Quotient(d.each, m);
      if rank > 0 && c.first.None? {
        assert rank * d.each == (rank - 1) * d.each + d.each;
      }
    }
  }

  lemma OffsetUneven(c: Config, d: Deal, rank: nat, v: nat)
    requires MiddleStages(c) >= 0 && Divides(c, d) && c.pp > 1 && rank < c.pp && v < d.rounds
    requires Uneven(c) && c.vp.None?
    ensures |StageSizes(c, d)| == c.pp
    ensures Offset(c, rank, Some(v)) == Some(Global(StageSizes(c, d), v, rank, 0))
  {
    var m := MiddleStages(c);
    SizesTotal(c, d);
    SizesPrefix(c, d, rank);
    if m > 0 {
      Quotient(d.each, m);
      assert MiddleLayers(c) / m == d.each;
    } else if rank > 0 {
      assert rank == 1 && c.first.Some?;
    }
  }

  lemma OffsetEven(c: Config, d: Deal, rank: nat, v: nat)
    requires MiddleStages(c) >= 0 && Divides(c, d) && c.pp > 1 && rank < c.pp && v < d.rounds
    requires !Uneven(c)
    ensures |StageSizes(c, d)| == c.pp
    ensures Offset(c, rank, Some(v)) == Some(Global(StageSizes(c, d), v, rank, 0))
  {
    SizesTotal(c, d);
    SizesPrefix(c, d, rank);
    SwapFactors(d.rounds, c.pp, d.each);
    Quotient(d.rounds * d.each, c.pp);
    Quotient(d.each, d.rounds);
    Quotient(c.pp * d.each, d.rounds);
  }

  /** On a configuration that divides, the offset is where the layout puts the stage, except in
      the interleaved uneven branch past rank 0 when no first stage size is given or no stage is
      left in the middle. */
  lemma OffsetIsPlace(c: Config, d: Deal, rank: nat, v: nat)
    requires MiddleStages(c) >= 0 && Divides(c, d) && c.pp > 1 && rank < c.pp && v < d.rounds
    ensures |StageSizes(c, d)| == c.pp
    ensures Offset(c, rank, Some(v)) == Some(Global(StageSizes(c, d), v, rank, 0)) <==> Numbered(c, d, rank)
  {
    if !Uneven(c) {
      OffsetEven(c, d, rank, v);
    } else if c.vp.None? {
      OffsetUneven(c, d, rank, v);
    } else {
      OffsetInterleavedUneven(c, d, rank, v);
    }
  }

  /** In the excluded case two stages start at the same layer. */
  lemma StagesCollide(c: Config, v: nat)
    requires c.pp >= 2 && c.first.None? && c.last.Some? && c.vp.Some? && c.vp.value >= 1
    ensures Offset(c, 0, Some(v)) == Offset(c, 1, Some(v)) != None
  {
    assert OrZero(c.first) / c.vp.value == 0;
  }

  /** (stage, rank, local layer) to offset + local is a bijection onto the layers: in range, onto,
      and one to one. */
  lemma LayersInRange(c: Config, d: Deal, v: nat, r: nat, local: int)
    requires MiddleStages(c) >= 0 && Divides(c, d) && c.pp > 1 && Place(StageSizes(c, d), d.rounds, v, r, local)
    requires Numbered(c, d, r)
    ensures Offset(c, r, Some(v)).Some? && 0 <= Offset(c, r, Some(v)).value + local < c.layers
  {
    SizesPrefix(c, d, 0);
    OffsetIsPlace(c, d, r, v);
    SizesTotal(c, d);
    PlaceInRange(StageSizes(c, d), d.rounds, v, r, local);
  }

  lemma LayersOnto(c: Config, d: Deal, g: int) returns (v: nat, r: nat, local: int)
    requires MiddleStages(c) >= 0 && Divides(c, d) && c.pp > 1 && 0 <= g < c.layers
    requires forall rank: nat :: rank < c.pp ==> Numbered(c, d, rank)
    ensures Place(StageSizes(c, d), d.rounds, v, r, local)
    ensures Offset(c, r, Some(v)).Some? && Offset(c, r, Some(v)).value + local == g
  {
    SizesPrefix(c, d, 0);
    SizesTotal(c, d);
    v, r, local := LayerHasPlace(StageSizes(c, d), d.rounds, g);
    OffsetIsPlace(c, d, r, v);
  }

  lemma LayersOneToOne(c: Config, d: Deal, v: nat, r: nat, local: int, v': nat, r': nat, local': int)
    requires MiddleStages(c) >= 0 && Divides(c, d) && c.pp > 1
    requires Place(StageSizes(c, d), d.rounds, v, r, local) && Place(StageSizes(c, d), d.rounds, v', r', local')
    requires Numbered(c, d, r) && Numbered(c, d, r')
    requires Offset(c, r, Some(v)).Some? && Offset(c, r', Some(v')).Some?
    requires Offset(c, r, Some(v)).value + local == Offset(c, r', Some(v')).value + local'
    ensures v == v' && r == r' && local == local'
  {
    SizesPrefix(c, d, 0);
    OffsetIsPlace(c, d, r, v);
    OffsetIsPlace(c, d, r', v');
    PlacesDiffer(StageSizes(c, d), d.rounds, v, r, local, v', r', local');
  }

  // --------------------------------------------------------------------------
  // The merger's layout
  // --------------------------------------------------------------------------

  /** The configuration the merger derives from the stage sizes it found. */
  function MergerConfig(layers: nat, sizes: seq<int>): Config
    requires forall r :: 0 <= r < |sizes| ==> sizes[r] >= 0
  {
    Config(layers, |sizes|, None,
           if |sizes| > 1 then Some(sizes[0]) else None,
           if |sizes| > 2 then Some(sizes[|sizes| - 1]) else None)
  }

  /** The number the merger adds to a rank's local layer numbers. */
  function LayersBefore(sizes: seq<int>, rank: nat): int
    requires rank <= |sizes|
  {
    Prefix(sizes, rank)
  }

  /** The name a rank's layer gets in the merged model. */
  function Renumbered(sizes: seq<int>, rank: nat, local: int): int
    requires rank <= |sizes|
  {
    local + LayersBefore(sizes, rank)
  }

  lemma UnevenOffset(layers: nat, pp: nat, middle: nat, rank: nat)
    requires pp >= 3 && Fits(layers, pp, middle) && rank < pp
    ensures AllNonNegative(Layout(layers, pp, middle))
    ensures Offset(MergerConfig(layers, Layout(layers, pp, middle)), rank, None) ==
            Some(if rank == 0 then 0 else (layers - middle * (pp - 2)) / 2 + (rank - 1) * middle)
  {
    var c := MergerConfig(layers, Layout(layers, pp, middle));
    Quotient(middle, pp - 2);
    assert MiddleLayers(c) == middle * (pp - 2);
    assert middle * (pp - 2) == (pp - 2) * middle;
  }

  lemma LayoutOffset(layers: nat, pp: nat, middle: nat, rank: nat)
    requires pp >= 3 && Fits(layers, pp, middle) && rank < pp
    ensures var s := Layout(layers, pp, middle);
            AllNonNegative(s) && Offset(MergerConfig(layers, s), rank, None) == Some(LayersBefore(s, rank))
  {
    LayoutPrefix(layers, pp, middle, rank);
    UnevenOffset(layers, pp, middle, rank);
  }

  lemma OneStageOffset(layers: nat, s: seq<int>)
    requires |s| == 1 && AllNonNegative(s)
    ensures Offset(MergerConfig(layers, s), 0, None) == Some(LayersBefore(s, 0))
  {
    assert s[..0] == [];
  }

  lemma TwoStageOffset(layers: nat, s: seq<int>, rank: nat)
    requires |s| == 2 && AllNonNegative(s) && s[0] + s[1] == layers && rank < 2
    ensures Offset(MergerConfig(layers, s), rank, None) == Some(LayersBefore(s, rank))
  {
    var c := MergerConfig(layers, s);
    assert s[..0] == [];
    if rank == 1 {
      PrefixStep(s, 0);
      var each := MiddleLayers(c) / MiddleStages(c);
      assert Offset(c, rank, None) == Some((rank - 1) * each + s[0]);
    }
  }

  lemma FoundLayout(layers: nat, pp: nat) returns (middle: nat)
    requires DynamicShards(layers, pp).Sizes? && pp >= 3
    ensures Fits(layers, pp, middle) && DynamicShards(layers, pp).sizes == Layout(layers, pp, middle)
  {
    middle := Ceil(layers, pp);
    SearchFinds(layers, pp);
    CeilBelow(layers, pp);
    FitsExactly(layers, pp, middle);
  }

  /** For every model the search lays out, the offset of a rank is the sum of the sizes before it. */
  lemma MergerOffset(layers: nat, pp: nat, rank: nat)
    requires DynamicShards(layers, pp).Sizes? && rank < pp
    ensures var s := DynamicShards(layers, pp).sizes;
            && ValidSizes(s, layers, pp)
            && Offset(MergerConfig(layers, s), rank, None) == Some(LayersBefore(s, rank))
  {
    ShardsAreValid(layers, pp);
    if pp == 1 {
      OneStageOffset(layers, DynamicShards(layers, pp).sizes);
    } else if pp == 2 {
      TwoStageOffset(layers, DynamicShards(layers, pp).sizes, rank);
    } else {
      var middle := FoundLayout(layers, pp);
      LayoutOffset(layers, pp, middle, rank);
    }
  }

  /** Renumbered this way, the merged model has every layer once: layer g comes from exactly one
      rank and local number. */
  lemma MergedLayers(layers: nat, pp: nat, g: int) returns (rank: nat, local: int)
    requires DynamicShards(layers, pp).Sizes? && 0 <= g < layers
    ensures var s := DynamicShards(layers, pp).sizes;
            && ValidSizes(s, layers, pp)
            && rank < pp && 0 <= local < s[rank] && Renumbered(s, rank, local) == g
            && forall r: nat, l: int :: r < pp && 0 <= l < s[r] && Renumbered(s, r, l) == g ==>
                 r == rank && l == local
  {
    var s := DynamicShards(layers, pp).sizes;
    ShardsAreValid(layers, pp);
    rank, local := FindStage(s, g);
    forall r: nat, l: int | r < pp && 0 <= l < s[r] && Renumbered(s, r, l) == g
      ensures r == rank && l == local
    {
      SameStage(s, r, l, rank, local);
      SameStage(s, rank, local, r, l);
    }
  }
}
