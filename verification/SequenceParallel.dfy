/** Ulysses sequence parallelism over one packed row: pad to a multiple of the number of ranks,
    slice one part per rank, gather the parts and drop the padding. */
module SequenceParallel {
  import opened IntSeqs

  /** How much padding a row of n tokens needs for sp ranks. */
  function PadSize(n: nat, sp: nat): (p: nat)
    requires sp >= 1
    ensures p < sp
  {
    if sp == 1 then 0 else (sp - n % sp) % sp
  }

  lemma PadSizeDivides(n: nat, sp: nat) returns (part: nat)
    requires sp >= 1
    ensures n + PadSize(n, sp) == part * sp
  {
    var q, r := n / sp, n % sp;
    assert n == q * sp + r;
    if r == 0 {
      part := q;
    } else {
      part := q + 1;
      assert (q + 1) * sp == q * sp + sp;
    }
  }

  function Pad<T>(x: seq<T>, value: T, p: nat): seq<T> {
    x + seq(p, _ => value)
  }

  /** The part of x that a rank works on. */
  function Slice<T>(x: seq<T>, rank: nat, sp: nat): (r: seq<T>)
    requires rank < sp
    ensures |r| == |x| / sp
  {
    var part := |x| / sp;
    SliceFits(|x|, rank, sp);
    x[rank * part..(rank + 1) * part]
  }

  lemma SliceFits(n: nat, rank: nat, sp: nat)
    requires rank < sp
    ensures 0 <= rank * (n / sp) <= (rank + 1) * (n / sp) <= n
    ensures (rank + 1) * (n / sp) == rank * (n / sp) + n / sp
  {
    var part := n / sp;
    ProductMonotone(part, 0, rank);
    ProductMonotone(part, rank, rank + 1);
    ProductMonotone(part, rank + 1, sp);
    assert part * sp <= n;
  }

  /** The parts of the first r ranks, in rank order. */
  function Gathered<T>(locals: seq<seq<T>>): seq<T> {
    if locals == [] then [] else Gathered(locals[..|locals| - 1]) + locals[|locals| - 1]
  }

  function Slices<T>(x: seq<T>, sp: nat, r: nat): (s: seq<seq<T>>)
    requires r <= sp
    ensures |s| == r
  {
    seq(r, i requires 0 <= i < r => Slice(x, i, sp))
  }

  lemma {:induction false} GatheredPrefix<T>(x: seq<T>, sp: nat, r: nat)
    requires r <= sp && sp >= 1
    ensures 0 <= r * (|x| / sp) <= |x| && Gathered(Slices(x, sp, r)) == x[..r * (|x| / sp)]
  {
    if r > 0 {
      GatheredPrefix(x, sp, r - 1);
      SliceFits(|x|, r - 1, sp);
      assert Slices(x, sp, r)[..r - 1] == Slices(x, sp, r - 1);
    }
  }

  /** Every token reaches exactly one rank: slicing and gathering is the identity when sp divides
      the length. */
  lemma GatherSlices<T>(x: seq<T>, sp: nat, part: nat)
    requires sp >= 1 && |x| == part * sp
    ensures Gathered(Slices(x, sp, sp)) == x
  {
    GatheredPrefix(x, sp, sp);
    NoRemainder(part, sp);
    assert sp * part == part * sp;
    assert x[..|x|] == x;
  }

  /** `gather_outputs_and_unpad`. */
  function GatherUnpad<T>(locals: seq<seq<T>>, p: nat): seq<T>
    requires p <= |Gathered(locals)|
  {
    var all := Gathered(locals);
    if p == 0 then all else all[..|all| - p]
  }

  /** Pad, slice, gather, unpad gives the row back, for any length and number of ranks. */
  lemma PadSliceGatherUnpad<T>(x: seq<T>, value: T, sp: nat)
    requires sp >= 1
    ensures var p := PadSize(|x|, sp);
            var padded := Pad(x, value, p);
            && Gathered(Slices(padded, sp, sp)) == padded
            && GatherUnpad(Slices(padded, sp, sp), p) == x
  {
    var p := PadSize(|x|, sp);
    var part := PadSizeDivides(|x|, sp);
    GatherSlices(Pad(x, value, p), sp, part);
  }
}
