/** Token losses computed on the padded batch and on the packed batch that sequence-parallel
    ranks share, and when the two agree. Logits are values of any type L. */
module PackedLoss {
  import opened IntSeqs
  import opened SequenceParallel
  import opened Unpadding

  // --------------------------------------------------------------------------
  // Flattened batches
  // --------------------------------------------------------------------------

  /** rows x seqlen tokens, flattened row by row: ids, which are valid, and the loss mask. */
  datatype Batch = Batch(rows: nat, seqlen: nat, ids: seq<int>, mask: seq<bool>, lossMask: seq<real>)

  ghost predicate Shaped(b: Batch) {
    b.seqlen >= 1 && |b.ids| == |b.mask| == |b.lossMask| == b.rows * b.seqlen
  }

  /** Where entry q of the columns from .. from + count - 1 sits in the flattened batch. */
  function Col(q: nat, seqlen: nat, from: nat, count: nat): int
    requires count >= 1
  {
    (q / count) * seqlen + from + q % count
  }

  lemma DivBelow(q: nat, rows: nat, w: nat)
    requires w >= 1 && q < rows * w
    ensures q / w < rows
  {
    if q / w >= rows {
      ProductMonotone(w, rows, q / w);
    }
  }

  lemma ColFits(q: nat, rows: nat, seqlen: nat, from: nat, count: nat)
    requires from + count <= seqlen && q < rows * count
    ensures count >= 1 && 0 <= Col(q, seqlen, from, count) < rows * seqlen
  {
    assert count >= 1;
    DivBelow(q, rows, count);
    var r := q / count;
    ProductMonotone(seqlen, 0, r);
    ProductMonotone(seqlen, r + 1, rows);
    assert seqlen * (r + 1) == r * seqlen + seqlen;
  }

  /** x[:, from : from + count], flattened. */
  function Columns<T>(x: seq<T>, rows: nat, seqlen: nat, from: nat, count: nat): (r: seq<T>)
    requires from + count <= seqlen && |x| == rows * seqlen
    ensures |r| == rows * count
  {
    ProductNonNegative(rows, count);
    seq(rows * count, q requires 0 <= q < rows * count =>
      (ColFits(q, rows, seqlen, from, count); x[Col(q, seqlen, from, count)]))
  }

  lemma ColumnAt<T>(x: seq<T>, rows: nat, seqlen: nat, from: nat, count: nat, q: nat)
    requires from + count <= seqlen && |x| == rows * seqlen && q < rows * count
    ensures count >= 1 && 0 <= Col(q, seqlen, from, count) < |x|
    ensures Columns(x, rows, seqlen, from, count)[q] == x[Col(q, seqlen, from, count)]
  {
    ColFits(q, rows, seqlen, from, count);
  }

  /** Entry q of the first columns is token t, entry q of the shifted columns its successor. */
  lemma ColumnPair<T>(x: seq<T>, rows: nat, seqlen: nat, from: nat, count: nat, q: nat, t: int)
    requires from + 1 + count <= seqlen && |x| == rows * seqlen && q < rows * count
    requires count >= 1 && t == Col(q, seqlen, from, count)
    ensures 0 <= t < |x| - 1
    ensures Columns(x, rows, seqlen, from, count)[q] == x[t]
    ensures Columns(x, rows, seqlen, from + 1, count)[q] == x[t + 1]
  {
    ColumnAt(x, rows, seqlen, from, count, q);
    ColumnAt(x, rows, seqlen, from + 1, count, q);
  }

  // --------------------------------------------------------------------------
  // Token by token
  // --------------------------------------------------------------------------

  /** The criterion at every position, unreduced. */
  function Losses<L>(ce: (L, int) -> real, logits: seq<L>, labels: seq<int>): (r: seq<real>)
    requires |logits| == |labels|
    ensures |r| == |labels|
  {
    seq(|labels|, i requires 0 <= i < |labels| => ce(logits[i], labels[i]))
  }

  function Masked(losses: seq<real>, mask: seq<real>): (r: seq<real>)
    requires |losses| == |mask|
    ensures |r| == |mask|
  {
    seq(|mask|, i requires 0 <= i < |mask| => losses[i] * mask[i])
  }

  /** torch.roll by -1: every token's successor, the first after the last. */
  function Roll<T>(s: seq<T>): (r: seq<T>)
    ensures |r| == |s|
  {
    if s == [] then [] else s[1..] + [s[0]]
  }

  // --------------------------------------------------------------------------
  // The two paths
  // --------------------------------------------------------------------------

  /** Losses of the padded batch before masking: logits[:, :-1] against ids[:, 1:]. */
  function PlainLosses<L>(b: Batch, logits: seq<L>, ce: (L, int) -> real): (r: seq<real>)
    requires Shaped(b) && |logits| == |b.mask|
    ensures |r| == b.rows * (b.seqlen - 1)
  {
    Losses(ce, Columns(logits, b.rows, b.seqlen, 0, b.seqlen - 1), Columns(b.ids, b.rows, b.seqlen, 1, b.seqlen - 1))
  }

  function Weights(b: Batch): (w: seq<real>)
    requires Shaped(b)
    ensures |w| == b.rows * (b.seqlen - 1)
  {
    Columns(b.lossMask, b.rows, b.seqlen, 1, b.seqlen - 1)
  }

  /** The loss on the padded batch. */
  function PlainLoss<L>(b: Batch, logits: seq<L>, ce: (L, int) -> real): seq<real>
    requires Shaped(b) && |logits| == |b.mask|
  {
    Masked(PlainLosses(b, logits, ce), Weights(b))
  }

  /** What each rank computes on its slice of the packed row. */
  function RankLosses<L>(ce: (L, int) -> real, packed: seq<L>, labels: seq<int>, sp: nat): (locals: seq<seq<real>>)
    requires |packed| == |labels|
    ensures |locals| == sp
  {
    seq(sp, r requires 0 <= r < sp => Losses(ce, Slice(packed, r, sp), Slice(labels, r, sp)))
  }

  /** How many tokens the packed row has once padded for sp ranks. */
  function PackedLength(b: Batch, sp: nat): nat
    requires sp >= 1
  {
    |NonZero(b.mask)| + PadSize(|NonZero(b.mask)|, sp)
  }

  /** The losses of the valid tokens as gathered from the ranks; `packed` holds the logits of all
      ranks in rank order. */
  function PackedLosses<L>(b: Batch, packed: seq<L>, ce: (L, int) -> real, sp: nat): (r: seq<real>)
    requires Shaped(b) && sp >= 1 && |packed| == PackedLength(b, sp)
    ensures |r| == |NonZero(b.mask)|
  {
    var kept := Unpad(b.ids, b.mask).0;
    var p := PadSize(|kept|, sp);
    var labels := Pad(Roll(kept), 0, p);
    RanksTogether(ce, packed, labels, |kept|, sp);
    GatherUnpad(RankLosses(ce, packed, labels, sp), p)
  }

  /** Those losses put back at the tokens they belong to, zero elsewhere. */
  function PutBack<L>(b: Batch, packed: seq<L>, ce: (L, int) -> real, sp: nat): (r: seq<real>)
    requires Shaped(b) && sp >= 1 && |packed| == PackedLength(b, sp)
    ensures |r| == |b.mask|
  {
    NonZeroIs(b.mask);
    PadBack(0.0, PackedLosses(b, packed, ce, sp), NonZero(b.mask), |b.mask|)
  }

  /** The loss on the packed batch, back in the batch's own shape. */
  function PackedLoss<L>(b: Batch, packed: seq<L>, ce: (L, int) -> real, sp: nat): seq<real>
    requires Shaped(b) && sp >= 1 && |packed| == PackedLength(b, sp)
  {
    Masked(Columns(PutBack(b, packed, ce, sp), b.rows, b.seqlen, 0, b.seqlen - 1), Weights(b))
  }

  lemma RankSlice<L>(ce: (L, int) -> real, packed: seq<L>, labels: seq<int>, r: nat, sp: nat)
    requires |packed| == |labels| && r < sp
    ensures Losses(ce, Slice(packed, r, sp), Slice(labels, r, sp)) == Slice(Losses(ce, packed, labels), r, sp)
  {
    SliceFits(|labels|, r, sp);
  }

  /** The ranks' losses, gathered and unpadded, are the losses of the whole packed row. */
  lemma RanksTogether<L>(ce: (L, int) -> real, packed: seq<L>, labels: seq<int>, n: nat, sp: nat)
    requires sp >= 1 && |packed| == |labels| == n + PadSize(n, sp)
    ensures var locals := RankLosses(ce, packed, labels, sp);
            && PadSize(n, sp) <= |Gathered(locals)|
            && GatherUnpad(locals, PadSize(n, sp)) == Losses(ce, packed, labels)[..n]
  {
    var all := Losses(ce, packed, labels);
    var part := PadSizeDivides(n, sp);
    GatherSlices(all, sp, part);
    forall r: nat | r < sp
      ensures RankLosses(ce, packed, labels, sp)[r] == Slices(all, sp, sp)[r]
    {
      RankSlice(ce, packed, labels, r, sp);
    }
    assert RankLosses(ce, packed, labels, sp) == Slices(all, sp, sp);
  }

  // --------------------------------------------------------------------------
  // When they agree
  // --------------------------------------------------------------------------

  /** The model gives a valid token the same logits in the packed row as in the padded batch. */
  ghost predicate SameLogits<L>(b: Batch, logits: seq<L>, packed: seq<L>)
    requires |NonZero(b.mask)| <= |packed| && |logits| == |b.mask|
  {
    forall i :: 0 <= i < |NonZero(b.mask)| ==>
      NonZero(b.mask)[i] < |logits| && packed[i] == logits[NonZero(b.mask)[i]]
  }

  /** Token t + 1 counts for the loss only if it and token t are valid. */
  ghost predicate PairOk(b: Batch, t: int)
    requires Shaped(b)
  {
    0 <= t < |b.mask| - 1 && (b.lossMask[t + 1] != 0.0 ==> b.mask[t] && b.mask[t + 1])
  }

  /** PairOk for every token but the last of each row. */
  ghost predicate MaskOk(b: Batch)
    requires Shaped(b)
  {
    var n := b.seqlen - 1;
    n >= 1 ==> forall q :: 0 <= q < b.rows * n ==> PairOk(b, Col(q, b.seqlen, 0, n))
  }

  lemma PackedLossesAre<L>(b: Batch, packed: seq<L>, ce: (L, int) -> real, sp: nat, i: nat)
    requires Shaped(b) && sp >= 1 && |packed| == PackedLength(b, sp) && i < |NonZero(b.mask)|
    ensures PackedLosses(b, packed, ce, sp)[i] == ce(packed[i], Roll(Unpad(b.ids, b.mask).0)[i])
  {
    var kept := Unpad(b.ids, b.mask).0;
    var labels := Pad(Roll(kept), 0, PadSize(|kept|, sp));
    RanksTogether(ce, packed, labels, |kept|, sp);
    assert labels[i] == Roll(kept)[i];
  }

  /** The label of kept token i is the id of some valid token, and of its neighbour when that is valid. */
  lemma LabelOf(b: Batch, i: nat) returns (u: nat)
    requires Shaped(b) && i < |NonZero(b.mask)|
    ensures NonZero(b.mask)[i] < |b.mask| && u < |b.mask| && b.mask[u]
    ensures Roll(Unpad(b.ids, b.mask).0)[i] == b.ids[u]
    ensures var t := NonZero(b.mask)[i]; t + 1 < |b.mask| && b.mask[t + 1] ==> u == t + 1
  {
    var indices, kept := NonZero(b.mask), Unpad(b.ids, b.mask).0;
    NonZeroIs(b.mask);
    var j := if i + 1 < |indices| then i + 1 else 0;
    u := indices[j];
    assert Roll(kept)[i] == kept[j];
    if indices[i] + 1 < |b.mask| && b.mask[indices[i] + 1] {
      NextKept(b.mask, i);
    }
  }

  lemma PutAt(losses: seq<real>, mask: seq<bool>, t: nat) returns (i: nat)
    requires |losses| == |NonZero(mask)| && t < |mask|
    ensures Indexes(NonZero(mask), |mask|)
    ensures !mask[t] ==> PadBack(0.0, losses, NonZero(mask), |mask|)[t] == 0.0
    ensures mask[t] ==> i < |losses| && NonZero(mask)[i] == t &&
                        PadBack(0.0, losses, NonZero(mask), |mask|)[t] == losses[i]
  {
    var indices := NonZero(mask);
    NonZeroIs(mask);
    PutIs(0.0, losses, indices, |mask|, |indices|);
    assert indices[..|indices|] == indices;
    i := 0;
    if mask[t] {
      i :| 0 <= i < |indices| && indices[i] == t;
    }
  }

  lemma PutBackAt<L>(b: Batch, packed: seq<L>, ce: (L, int) -> real, sp: nat, t: nat) returns (i: nat)
    requires Shaped(b) && sp >= 1 && |packed| == PackedLength(b, sp) && t < |b.mask|
    ensures var put := PutBack(b, packed, ce, sp);
            && (!b.mask[t] ==> put[t] == 0.0)
            && (b.mask[t] ==> i < |NonZero(b.mask)| && NonZero(b.mask)[i] == t
                              && put[t] == PackedLosses(b, packed, ce, sp)[i])
  {
    i := PutAt(PackedLosses(b, packed, ce, sp), b.mask, t);
  }

  /** The loss of the kept token i. */
  lemma LossOfKept<L>(b: Batch, logits: seq<L>, packed: seq<L>, ce: (L, int) -> real, sp: nat, i: nat)
    returns (u: nat)
    requires Shaped(b) && sp >= 1 && |packed| == PackedLength(b, sp) && |logits| == |b.mask|
    requires SameLogits(b, logits, packed) && i < |NonZero(b.mask)|
    ensures NonZero(b.mask)[i] < |b.mask| && u < |b.mask| && b.mask[u]
    ensures var t := NonZero(b.mask)[i];
            && PackedLosses(b, packed, ce, sp)[i] == ce(logits[t], b.ids[u])
            && (t + 1 < |b.mask| && b.mask[t + 1] ==> u == t + 1)
  {
    PackedLossesAre(b, packed, ce, sp, i);
    u := LabelOf(b, i);
  }

  /** The loss put back for token t: nothing if t is invalid, else against the id of some valid
      token, which is token t + 1 when that one is valid. */
  lemma LossPutBack<L>(b: Batch, logits: seq<L>, packed: seq<L>, ce: (L, int) -> real, sp: nat, t: nat)
    returns (u: nat)
    requires Shaped(b) && sp >= 1 && |packed| == PackedLength(b, sp) && |logits| == |b.mask|
    requires SameLogits(b, logits, packed) && t < |b.mask|
    ensures var put := PutBack(b, packed, ce, sp);
            && (!b.mask[t] ==> put[t] == 0.0)
            && (b.mask[t] ==> u < |b.mask| && b.mask[u] && put[t] == ce(logits[t], b.ids[u]))
            && (b.mask[t] && t + 1 < |b.mask| && b.mask[t + 1] ==> u == t + 1)
  {
    var i := PutBackAt(b, packed, ce, sp, t);
    u := 0;
    if b.mask[t] {
      u := LossOfKept(b, logits, packed, ce, sp, i);
    }
  }

  lemma PlainEntry<L>(b: Batch, logits: seq<L>, ce: (L, int) -> real, q: nat, t: int)
    requires Shaped(b) && |logits| == |b.mask|
    requires b.seqlen >= 2 && q < b.rows * (b.seqlen - 1) && t == Col(q, b.seqlen, 0, b.seqlen - 1)
    ensures 0 <= t < |b.mask| - 1 && Weights(b)[q] == b.lossMask[t + 1]
    ensures PlainLosses(b, logits, ce)[q] == ce(logits[t], b.ids[t + 1])
  {
    ColumnPair(logits, b.rows, b.seqlen, 0, b.seqlen - 1, q, t);
    ColumnPair(b.ids, b.rows, b.seqlen, 0, b.seqlen - 1, q, t);
    ColumnPair(b.lossMask, b.rows, b.seqlen, 0, b.seqlen - 1, q, t);
  }

  lemma Entries<L>(b: Batch, logits: seq<L>, packed: seq<L>, ce: (L, int) -> real, sp: nat, q: nat, t: int)
    requires Shaped(b) && sp >= 1 && |packed| == PackedLength(b, sp) && |logits| == |b.mask|
    requires b.seqlen >= 2 && q < b.rows * (b.seqlen - 1) && t == Col(q, b.seqlen, 0, b.seqlen - 1)
    ensures 0 <= t < |b.mask| - 1 && Weights(b)[q] == b.lossMask[t + 1]
    ensures PlainLosses(b, logits, ce)[q] == ce(logits[t], b.ids[t + 1])
    ensures Columns(PutBack(b, packed, ce, sp), b.rows, b.seqlen, 0, b.seqlen - 1)[q] ==
            PutBack(b, packed, ce, sp)[t]
  {
    PlainEntry(b, logits, ce, q, t);
    ColumnAt(PutBack(b, packed, ce, sp), b.rows, b.seqlen, 0, b.seqlen - 1, q);
  }

  lemma PutSame<L>(b: Batch, logits: seq<L>, packed: seq<L>, ce: (L, int) -> real, sp: nat, t: nat)
    requires Shaped(b) && sp >= 1 && |packed| == PackedLength(b, sp) && |logits| == |b.mask|
    requires SameLogits(b, logits, packed) && t < |b.mask| - 1 && b.mask[t] && b.mask[t + 1]
    ensures PutBack(b, packed, ce, sp)[t] == ce(logits[t], b.ids[t + 1])
  {
    var u := LossPutBack(b, logits, packed, ce, sp, t);
  }

  lemma SameEntryAt<L>(b: Batch, logits: seq<L>, packed: seq<L>, ce: (L, int) -> real, sp: nat, q: nat, t: int)
    requires Shaped(b) && sp >= 1 && |packed| == PackedLength(b, sp) && |logits| == |b.mask|
    requires SameLogits(b, logits, packed) && b.seqlen >= 2 && q < b.rows * (b.seqlen - 1)
    requires t == Col(q, b.seqlen, 0, b.seqlen - 1) && PairOk(b, t)
    ensures Weights(b)[q] != 0.0 ==>
              Columns(PutBack(b, packed, ce, sp), b.rows, b.seqlen, 0, b.seqlen - 1)[q] ==
              PlainLosses(b, logits, ce)[q]
  {
    Entries(b, logits, packed, ce, sp, q, t);
    if b.lossMask[t + 1] != 0.0 {
      PutSame(b, logits, packed, ce, sp, t);
    }
  }

  lemma SameEntry<L>(b: Batch, logits: seq<L>, packed: seq<L>, ce: (L, int) -> real, sp: nat, q: nat)
    requires Shaped(b) && sp >= 1 && |packed| == PackedLength(b, sp) && |logits| == |b.mask|
    requires SameLogits(b, logits, packed) && MaskOk(b) && b.seqlen >= 2 && q < b.rows * (b.seqlen - 1)
    ensures Weights(b)[q] != 0.0 ==>
              Columns(PutBack(b, packed, ce, sp), b.rows, b.seqlen, 0, b.seqlen - 1)[q] ==
              PlainLosses(b, logits, ce)[q]
  {
    var t := Col(q, b.seqlen, 0, b.seqlen - 1);
    assert PairOk(b, t);
    SameEntryAt(b, logits, packed, ce, sp, q, t);
  }

  lemma MaskedSame(x: seq<real>, y: seq<real>, w: seq<real>)
    requires |x| == |y| == |w| && forall q :: 0 <= q < |w| && w[q] != 0.0 ==> x[q] == y[q]
    ensures Masked(x, w) == Masked(y, w)
  {
    forall q | 0 <= q < |w|
      ensures Masked(x, w)[q] == Masked(y, w)[q]
    {
      if w[q] == 0.0 {
        assert x[q] * 0.0 == y[q] * 0.0;
      }
    }
  }

  lemma MaskedDiffers(x: seq<real>, y: seq<real>, w: seq<real>, q: nat)
    requires |x| == |y| == |w| && q < |w| && w[q] != 0.0 && x[q] == 0.0 && y[q] == 1.0
    ensures Masked(x, w) != Masked(y, w)
  {
    assert Masked(x, w)[q] == 0.0 * w[q] && Masked(y, w)[q] == 1.0 * w[q];
  }

  lemma NoEntries(rows: nat, n: nat)
    ensures n == 0 ==> rows * n == 0
  {
  }

  /** The packed loss is the padded loss, entry by entry, for any criterion, any number of ranks
      and any model whose logits agree on valid tokens. */
  lemma PackedIsPlain<L>(b: Batch, logits: seq<L>, packed: seq<L>, ce: (L, int) -> real, sp: nat)
    requires Shaped(b) && sp >= 1 && |packed| == PackedLength(b, sp) && |logits| == |b.mask|
    requires SameLogits(b, logits, packed) && MaskOk(b)
    ensures PackedLoss(b, packed, ce, sp) == PlainLoss(b, logits, ce)
  {
    var w := Weights(b);
    var x := Columns(PutBack(b, packed, ce, sp), b.rows, b.seqlen, 0, b.seqlen - 1);
    var y := PlainLosses(b, logits, ce);
    NoEntries(b.rows, b.seqlen - 1);
    forall q: nat | q < |w|
      ensures w[q] != 0.0 ==> x[q] == y[q]
    {
      SameEntry(b, logits, packed, ce, sp, q);
    }
    MaskedSame(x, y, w);
  }

  /** With distinct ids, a token of a bad pair gets no loss or one against a wrong id. */
  lemma PutDiffers(b: Batch, logits: seq<int>, packed: seq<int>, ce: (int, int) -> real, sp: nat, t: nat)
    returns (u: nat)
    requires Shaped(b) && sp >= 1 && |packed| == PackedLength(b, sp) && |logits| == |b.mask|
    requires SameLogits(b, logits, packed) && t < |b.mask| - 1 && !PairOk(b, t)
    requires forall i :: 0 <= i < |b.ids| ==> b.ids[i] == i
    ensures u != t + 1 && PutBack(b, packed, ce, sp)[t] == if b.mask[t] then ce(logits[t], u) else 0.0
  {
    u := LossPutBack(b, logits, packed, ce, sp, t);
    if b.mask[t] {
      assert b.ids[u] == u != t + 1;
    } else {
      u := t;
    }
  }

  lemma DifferAt<L>(b: Batch, logits: seq<L>, packed: seq<L>, ce: (L, int) -> real, sp: nat, q: nat, t: nat)
    requires Shaped(b) && sp >= 1 && |packed| == PackedLength(b, sp) && |logits| == |b.mask|
    requires b.seqlen >= 2 && q < b.rows * (b.seqlen - 1) && t == Col(q, b.seqlen, 0, b.seqlen - 1)
    requires t < |b.mask| - 1 && b.lossMask[t + 1] != 0.0
    requires PutBack(b, packed, ce, sp)[t] == 0.0 && ce(logits[t], b.ids[t + 1]) == 1.0
    ensures PackedLoss(b, packed, ce, sp) != PlainLoss(b, logits, ce)
  {
    Entries(b, logits, packed, ce, sp, q, t);
    MaskedDiffers(Columns(PutBack(b, packed, ce, sp), b.rows, b.seqlen, 0, b.seqlen - 1), PlainLosses(b, logits, ce),
                  Weights(b), q);
  }

  lemma BadPair(b: Batch) returns (q: nat, t: nat)
    requires Shaped(b) && !MaskOk(b)
    ensures b.seqlen >= 2 && q < b.rows * (b.seqlen - 1) && t == Col(q, b.seqlen, 0, b.seqlen - 1)
    ensures t < |b.mask| - 1 && !PairOk(b, t)
  {
    var n := b.seqlen - 1;
    var i: int :| 0 <= i < b.rows * n && !PairOk(b, Col(i, b.seqlen, 0, n));
    ColumnPair(b.mask, b.rows, b.seqlen, 0, n, i, Col(i, b.seqlen, 0, n));
    q, t := i, Col(i, b.seqlen, 0, n);
  }

  /** A criterion that only notices one id. */
  function Spike(id: int): (int, int) -> real {
    (l, i) => if i == id then 1.0 else 0.0
  }

  lemma SpikeDiffers(b: Batch, logits: seq<int>, packed: seq<int>, sp: nat, q: nat, t: nat)
    requires Shaped(b) && sp >= 1 && |packed| == PackedLength(b, sp) && |logits| == |b.mask|
    requires b.seqlen >= 2 && q < b.rows * (b.seqlen - 1) && t == Col(q, b.seqlen, 0, b.seqlen - 1)
    requires SameLogits(b, logits, packed) && t < |b.mask| - 1 && !PairOk(b, t)
    requires forall i :: 0 <= i < |b.ids| ==> b.ids[i] == i
    ensures PackedLoss(b, packed, Spike(t + 1), sp) != PlainLoss(b, logits, Spike(t + 1))
  {
    var u := PutDiffers(b, logits, packed, Spike(t + 1), sp, t);
    DifferAt(b, logits, packed, Spike(t + 1), sp, q, t);
  }

  /** Where MaskOk fails, the paths can differ: some ids and criterion give different losses. */
  lemma MaskNeeded(b: Batch, sp: nat) returns (c: Batch, logits: seq<int>, packed: seq<int>, ce: (int, int) -> real)
    requires Shaped(b) && sp >= 1 && !MaskOk(b)
    ensures c.rows == b.rows && c.seqlen == b.seqlen && c.mask == b.mask && c.lossMask == b.lossMask && Shaped(c)
    ensures |packed| == PackedLength(c, sp) && |logits| == |c.mask| && SameLogits(c, logits, packed)
    ensures PackedLoss(c, packed, ce, sp) != PlainLoss(c, logits, ce)
  {
    var q, t := BadPair(b);
    c := b.(ids := seq(|b.ids|, i => i));
    logits := seq(|b.mask|, _ => 0);
    packed := seq(PackedLength(c, sp), _ => 0);
    ce := Spike(t + 1);
    NonZeroIs(c.mask);
    SpikeDiffers(c, logits, packed, sp, q, t);
  }

  /** The two paths give the same loss whatever the token ids, the logits and the criterion. */
  ghost predicate PathsAgree(b: Batch, sp: nat)
    requires Shaped(b) && sp >= 1
  {
    forall ids: seq<int>, logits: seq<int>, packed: seq<int>, ce: (int, int) -> real ::
      var c := b.(ids := ids);
      |ids| == |logits| == |b.mask| && |packed| == PackedLength(c, sp) && SameLogits(c, logits, packed) ==>
        PackedLoss(c, packed, ce, sp) == PlainLoss(c, logits, ce)
  }

  lemma OtherIds(b: Batch, ids: seq<int>)
    requires Shaped(b) && MaskOk(b) && |ids| == |b.mask|
    ensures Shaped(b.(ids := ids)) && MaskOk(b.(ids := ids))
  {
  }

  /** They do so exactly when every token that counts, and the token before it, is valid. */
  lemma PathsAgreeExactly(b: Batch, sp: nat)
    requires Shaped(b) && sp >= 1
    ensures PathsAgree(b, sp) <==> MaskOk(b)
  {
    if MaskOk(b) {
      forall ids: seq<int>, logits: seq<int>, packed: seq<int>, ce: (int, int) -> real |
        var c := b.(ids := ids);
        |ids| == |logits| == |b.mask| && |packed| == PackedLength(c, sp) && SameLogits(c, logits, packed)
        ensures PackedLoss(b.(ids := ids), packed, ce, sp) == PlainLoss(b.(ids := ids), logits, ce)
      {
        OtherIds(b, ids);
        PackedIsPlain(b.(ids := ids), logits, packed, ce, sp);
      }
    } else {
      var c, logits, packed, ce := MaskNeeded(b, sp);
      assert c == b.(ids := c.ids);
    }
  }

  // --------------------------------------------------------------------------
  // A model that works token by token
  // --------------------------------------------------------------------------

  function RunModel<L>(m: (int, int) -> L, ids: seq<int>, positions: seq<int>): (r: seq<L>)
    requires |ids| == |positions|
    ensures |r| == |ids|
  {
    seq(|ids|, i requires 0 <= i < |ids| => m(ids[i], positions[i]))
  }

  /** The packed inputs of all ranks: kept ids padded with zeros, kept positions with 0, 1, 2 ... */
  function PackedInputs(b: Batch, positions: seq<int>, sp: nat): (r: (seq<int>, seq<int>))
    requires Shaped(b) && sp >= 1 && |positions| == |b.mask|
    ensures |r.0| == |r.1| == PackedLength(b, sp)
  {
    var p := PadSize(|NonZero(b.mask)|, sp);
    (Pad(Unpad(b.ids, b.mask).0, 0, p), Unpad(positions, b.mask).0 + seq(p, i => i))
  }

  /** Every rank runs the model on its slice; together that is the model on the packed row. */
  lemma RanksRunModel<L>(m: (int, int) -> L, ids: seq<int>, positions: seq<int>, sp: nat, rank: nat)
    requires |ids| == |positions| && rank < sp
    ensures RunModel(m, Slice(ids, rank, sp), Slice(positions, rank, sp)) ==
            Slice(RunModel(m, ids, positions), rank, sp)
  {
    SliceFits(|ids|, rank, sp);
  }

  /** With such a model the packed loss is the padded loss, whatever the padding. */
  lemma PerTokenModel<L>(b: Batch, positions: seq<int>, m: (int, int) -> L, ce: (L, int) -> real, sp: nat)
    requires Shaped(b) && sp >= 1 && |positions| == |b.mask| && MaskOk(b)
    ensures var inputs := PackedInputs(b, positions, sp);
            PackedLoss(b, RunModel(m, inputs.0, inputs.1), ce, sp) ==
            PlainLoss(b, RunModel(m, b.ids, positions), ce)
  {
    var inputs := PackedInputs(b, positions, sp);
    NonZeroIs(b.mask);
    PackedIsPlain(b, RunModel(m, b.ids, positions), RunModel(m, inputs.0, inputs.1), ce, sp);
  }

  // --------------------------------------------------------------------------
  // Log-probabilities of the response
  // --------------------------------------------------------------------------

  /** `log_probs_from_logits_response`: the last n columns, each against the logits before it. */
  function PaddedResponse<L>(b: Batch, logits: seq<L>, lp: (L, int) -> real, n: nat): (r: seq<real>)
    requires Shaped(b) && |logits| == |b.mask| && 1 <= n < b.seqlen
    ensures |r| == b.rows * n
  {
    Losses(lp,
           Columns(logits, b.rows, b.seqlen, b.seqlen - n - 1, n),
           Columns(b.ids, b.rows, b.seqlen, b.seqlen - n, n))
  }

  /** The packed log-probabilities put back at their tokens. */
  function RmpadFull<L>(b: Batch, packed: seq<L>, lp: (L, int) -> real): (r: seq<real>)
    requires Shaped(b) && |packed| == |NonZero(b.mask)|
    ensures |r| == |b.mask|
  {
    NonZeroIs(b.mask);
    PadBack(0.0, Losses(lp, packed, Roll(Unpad(b.ids, b.mask).0)), NonZero(b.mask), |b.mask|)
  }

  /** `log_probs_from_logits_response_rmpad`. */
  function RmpadResponse<L>(b: Batch, packed: seq<L>, lp: (L, int) -> real, n: nat): (r: seq<real>)
    requires Shaped(b) && |packed| == |NonZero(b.mask)| && 1 <= n < b.seqlen
    ensures |r| == b.rows * n
  {
    Columns(RmpadFull(b, packed, lp), b.rows, b.seqlen, b.seqlen - n - 1, n)
  }

  lemma RmpadIsOneRank<L>(b: Batch, packed: seq<L>, lp: (L, int) -> real)
    requires Shaped(b) && |packed| == |NonZero(b.mask)|
    ensures PackedLength(b, 1) == |packed| && RmpadFull(b, packed, lp) == PutBack(b, packed, lp, 1)
  {
    var kept := Unpad(b.ids, b.mask).0;
    var labels := Roll(kept);
    assert Pad(labels, 0, 0) == labels;
    RanksTogether(lp, packed, labels, |kept|, 1);
    assert Losses(lp, packed, labels)[..|kept|] == Losses(lp, packed, labels);
  }

  /** On every response token that is valid and follows a valid token the two log-probabilities
      agree; after an invalid token the packed one is zero. */
  lemma RmpadAgrees<L>(b: Batch, logits: seq<L>, packed: seq<L>, lp: (L, int) -> real, n: nat, q: nat, t: int)
    requires Shaped(b) && |logits| == |b.mask| && |packed| == |NonZero(b.mask)| && SameLogits(b, logits, packed)
    requires 1 <= n < b.seqlen && q < b.rows * n && t == Col(q, b.seqlen, b.seqlen - n - 1, n)
    ensures 0 <= t < |b.mask| - 1
    ensures b.mask[t] && b.mask[t + 1] ==> RmpadResponse(b, packed, lp, n)[q] == PaddedResponse(b, logits, lp, n)[q]
    ensures !b.mask[t] ==> RmpadResponse(b, packed, lp, n)[q] == 0.0
  {
    var from := b.seqlen - n - 1;
    ColumnPair(RmpadFull(b, packed, lp), b.rows, b.seqlen, from, n, q, t);
    ColumnPair(logits, b.rows, b.seqlen, from, n, q, t);
    ColumnPair(b.ids, b.rows, b.seqlen, from, n, q, t);
    RmpadIsOneRank(b, packed, lp);
    var u := LossPutBack(b, logits, packed, lp, 1, t);
  }
}
