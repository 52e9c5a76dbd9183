/** Sums of integer sequences, and a little arithmetic. */
module IntSeqs {

  function Sum(s: seq<int>): int {
    if s == [] then 0 else Sum(s[..|s| - 1]) + s[|s| - 1]
  }

  lemma {:induction false} SumConcat(s: seq<int>, t: seq<int>)
    ensures Sum(s + t) == Sum(s) + Sum(t)
  {
    if t == [] {
      assert s + t == s;
    } else {
      SumConcat(s, t[..|t| - 1]);
      assert (s + t)[..|s + t| - 1] == s + t[..|t| - 1];
    }
  }

  lemma SumSnoc(s: seq<int>, x: int)
    ensures Sum(s + [x]) == Sum(s) + x
  {
    assert (s + [x])[..|s|] == s;
  }

  /** Taking out one element. */
  lemma SumSplit(s: seq<int>, i: nat)
    requires i < |s|
    ensures Sum(s) == Sum(s[..i]) + s[i] + Sum(s[i + 1..])
  {
    var head, tail := s[..i + 1], s[i + 1..];
    assert s == head + tail;
    SumConcat(head, tail);
    assert head[..i] == s[..i];
  }

  /** The sum of what is left after taking out element i. */
  lemma SumRemove(s: seq<int>, t: seq<int>, i: nat)
    requires i < |s| && |t| == |s| - 1
    requires forall j :: 0 <= j < i ==> t[j] == s[j]
    requires forall j :: i <= j < |t| ==> t[j] == s[j + 1]
    ensures Sum(s) == Sum(t) + s[i]
  {
    SumSplit(s, i);
    assert t == t[..i] + t[i..] && t[..i] == s[..i];
    assert t[i..] == s[i + 1..] by {
      assert forall j :: 0 <= j < |t| - i ==> t[i..][j] == t[i + j];
    }
    SumConcat(t[..i], t[i..]);
  }

  lemma SumAppend(s: seq<int>, t: seq<int>)
    requires |t| == |s| + 1 && forall j :: 0 <= j < |s| ==> t[j] == s[j]
    ensures Sum(t) == Sum(s) + t[|s|]
  {
    assert t[..|s|] == s;
  }

  lemma SumUpdate(s: seq<int>, i: nat, x: int)
    requires i < |s|
    ensures Sum(s[i := x]) == Sum(s) - s[i] + x
  {
    var t := s[i := x];
    SumSplit(s, i);
    SumSplit(t, i);
    assert t[..i] == s[..i] && t[i + 1..] == s[i + 1..];
  }

  lemma {:induction false} SumNonNegative(s: seq<int>)
    requires forall i :: 0 <= i < |s| ==> s[i] >= 0
    ensures Sum(s) >= 0
  {
    if s != [] {
      SumNonNegative(s[..|s| - 1]);
    }
  }

  lemma PartOfTotal(loads: seq<int>, p: nat)
    requires p < |loads| && forall q :: 0 <= q < |loads| ==> loads[q] >= 0
    ensures loads[p] <= Sum(loads)
  {
    SumSplit(loads, p);
    SumNonNegative(loads[..p]);
    SumNonNegative(loads[p + 1..]);
  }

  lemma {:induction false} SumAtMost(s: seq<int>, m: int)
    requires forall i :: 0 <= i < |s| ==> s[i] <= m
    ensures Sum(s) <= |s| * m
  {
    if s != [] {
      SumAtMost(s[..|s| - 1], m);
      assert |s| * m == (|s| - 1) * m + m;
    }
  }

  lemma {:induction false} SumOfEqual(s: seq<int>, w: int)
    requires forall i :: 0 <= i < |s| ==> s[i] == w
    ensures Sum(s) == |s| * w
  {
    if s != [] {
      SumOfEqual(s[..|s| - 1], w);
      assert |s| * w == (|s| - 1) * w + w;
    }
  }

  lemma ProductNonNegative(a: int, b: int)
    requires a >= 0 && b >= 0
    ensures a * b >= 0
  {
  }

  lemma ProductStep(k: int, w: int)
    ensures (k - 1) * w == k * w - w
  {
  }

  lemma ProductMonotone(c: int, a: int, b: int)
    requires c >= 0 && a <= b
    ensures c * a <= c * b
  {
    ProductNonNegative(c, b - a);
    assert c * (b - a) == c * b - c * a;
  }

  /** A multiple of k below k in absolute value is zero. */
  lemma SmallMultiple(d: int, k: int)
    requires k >= 1 && 0 <= k * d < k
    ensures d == 0
  {
    if d >= 1 {
      ProductMonotone(k, 1, d);
    } else if d <= -1 {
      ProductMonotone(k, d, -1);
    }
  }

  lemma NoRemainder(a: int, k: int)
    requires k >= 1
    ensures (a * k) % k == 0 && (a * k) / k == a
  {
    var q, r := (a * k) / k, (a * k) % k;
    assert k * (a - q) == r;
    SmallMultiple(a - q, k);
  }

  /** Division rounding towards minus infinity, for a divisor of either sign. */
  function FloorDiv(a: int, b: int): int
    requires b != 0
  {
    if b > 0 then a / b else (-a) / (-b)
  }
}
