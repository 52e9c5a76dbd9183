/** Removing padding from a batch and putting it back: the flattened batch, its valid positions,
    and the two index operations. */
module Unpadding {

  /** Positions of the valid tokens, in order. */
  function NonZero(mask: seq<bool>): (indices: seq<nat>)
    ensures |indices| <= |mask|
  {
    if mask == [] then []
    else
      var last := |mask| - 1;
      NonZero(mask[..last]) + if mask[last] then [last] else []
  }

  ghost predicate Increasing(s: seq<nat>) {
    forall i, j :: 0 <= i < j < |s| ==> s[i] < s[j]
  }

  /** The positions are exactly the valid ones, each once, in order. */
  lemma {:induction false} NonZeroIs(mask: seq<bool>)
    ensures Increasing(NonZero(mask))
    ensures forall i :: 0 <= i < |NonZero(mask)| ==> NonZero(mask)[i] < |mask| && mask[NonZero(mask)[i]]
    ensures forall q: nat :: q < |mask| && mask[q] ==> q in NonZero(mask)
  {
    if mask != [] {
      var last := |mask| - 1;
      NonZeroIs(mask[..last]);
      forall q: nat | q < |mask| && mask[q]
        ensures q in NonZero(mask)
      {
        assert q < last ==> mask[..last][q];
      }
    }
  }

  /** Neighbouring valid positions are neighbours among the kept tokens. */
  lemma NextKept(mask: seq<bool>, i: nat)
    requires i < |NonZero(mask)|
    requires NonZero(mask)[i] + 1 < |mask| && mask[NonZero(mask)[i] + 1]
    ensures i + 1 < |NonZero(mask)| && NonZero(mask)[i + 1] == NonZero(mask)[i] + 1
  {
    NonZeroIs(mask);
    var indices := NonZero(mask);
    var j :| 0 <= j < |indices| && indices[j] == indices[i] + 1;
    assert i + 1 <= j;
    assert indices[i] < indices[i + 1] <= indices[j];
  }

  ghost predicate Indexes(indices: seq<nat>, n: nat) {
    forall i :: 0 <= i < |indices| ==> indices[i] < n
  }

  /** `index_first_axis`. */
  function Gather<T>(x: seq<T>, indices: seq<nat>): (r: seq<T>)
    requires Indexes(indices, |x|)
    ensures |r| == |indices|
  {
    seq(|indices|, i requires 0 <= i < |indices| => x[indices[i]])
  }

  /** `unpad_input`: the valid tokens and where they came from. */
  function Unpad<T>(x: seq<T>, mask: seq<bool>): (r: (seq<T>, seq<nat>))
    requires |x| == |mask|
    ensures |r.0| == |r.1| && r.1 == NonZero(mask)
  {
    NonZeroIs(mask);
    (Gather(x, NonZero(mask)), NonZero(mask))
  }

  /** n zeros after the first k values have been written to their places. */
  function PutUpTo<T>(zero: T, values: seq<T>, indices: seq<nat>, n: nat, k: nat): (r: seq<T>)
    requires |values| == |indices| && Indexes(indices, n) && k <= |indices|
    ensures |r| == n
  {
    if k == 0 then seq(n, _ => zero)
    else PutUpTo(zero, values, indices, n, k - 1)[indices[k - 1] := values[k - 1]]
  }

  /** `pad_input`. */
  function PadBack<T>(zero: T, values: seq<T>, indices: seq<nat>, n: nat): (r: seq<T>)
    requires |values| == |indices| && Indexes(indices, n)
    ensures |r| == n
  {
    PutUpTo(zero, values, indices, n, |indices|)
  }

  lemma {:induction false} PutIs<T>(zero: T, values: seq<T>, indices: seq<nat>, n: nat, k: nat)
    requires |values| == |indices| && Indexes(indices, n) && k <= |indices| && Increasing(indices)
    ensures forall i :: 0 <= i < k ==> PutUpTo(zero, values, indices, n, k)[indices[i]] == values[i]
    ensures forall q :: 0 <= q < n && q !in indices[..k] ==> PutUpTo(zero, values, indices, n, k)[q] == zero
  {
    if k > 0 {
      PutIs(zero, values, indices, n, k - 1);
      assert indices[..k] == indices[..k - 1] + [indices[k - 1]];
    }
  }

  /** Padding back restores every valid token and leaves zeros elsewhere. */
  lemma PadBackUnpad<T>(zero: T, x: seq<T>, mask: seq<bool>)
    requires |x| == |mask|
    ensures Indexes(NonZero(mask), |x|)
    ensures PadBack(zero, Unpad(x, mask).0, NonZero(mask), |x|) ==
            seq(|x|, q requires 0 <= q < |x| => if mask[q] then x[q] else zero)
  {
    NonZeroIs(mask);
    var indices := NonZero(mask);
    PutIs(zero, Unpad(x, mask).0, indices, |x|, |indices|);
    assert indices[..|indices|] == indices;
    forall q: nat | q < |x|
      ensures PadBack(zero, Unpad(x, mask).0, indices, |x|)[q] == if mask[q] then x[q] else zero
    {
      if mask[q] {
        var i :| 0 <= i < |indices| && indices[i] == q;
      }
    }
  }

  /** `IndexPutFirstAxis.forward` itself. */
  method IndexPutFirstAxis<T(0)>(zero: T, values: seq<T>, indices: seq<nat>, n: nat) returns (r: seq<T>)
    requires |values| == |indices| && Indexes(indices, n)
    ensures r == PadBack(zero, values, indices, n)
  {
    var output := new T[n](_ => zero);
    assert output[..] == seq(n, _ => zero);
    var k := 0;
    while k < |indices|
      invariant 0 <= k <= |indices|
      invariant output[..] == PutUpTo(zero, values, indices, n, k)
    {
      output[indices[k]] := values[k];
      k := k + 1;
    }
    return output[..];
  }
}
