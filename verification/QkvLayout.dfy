/** Taking apart the fused query-key-value weight. Its rows come in groups, one per key-value
    head: that group's query rows, then its key rows, then its value rows. Three pieces of code
    take it apart, from different tensors; each is tied to one reference. */
module QkvLayout {
  import opened IntSeqs
  import opened Lists

  datatype Qkv<T> = Qkv(q: seq<T>, k: seq<T>, v: seq<T>)

  function Append<T>(a: Qkv<T>, b: Qkv<T>): Qkv<T> {
    Qkv(a.q + b.q, a.k + b.k, a.v + b.v)
  }

  /** qn query rows, h key rows and h value rows in every group. */
  ghost predicate Groups<T>(gs: seq<seq<T>>, qn: nat, h: nat) {
    forall i :: 0 <= i < |gs| ==> |gs[i]| == qn + 2 * h
  }

  function Split<T>(group: seq<T>, qn: nat, h: nat): Qkv<T>
    requires |group| == qn + 2 * h
  {
    Qkv(group[..qn], group[qn..qn + h], group[qn + h..])
  }

  /** The reference: all queries, all keys and all values, group by group. */
  function Regroup<T>(gs: seq<seq<T>>, qn: nat, h: nat): Qkv<T>
    requires Groups(gs, qn, h)
  {
    if gs == [] then Qkv([], [], [])
    else Append(Split(gs[0], qn, h), Regroup(gs[1..], qn, h))
  }

  lemma AppendAssociates<T>(a: Qkv<T>, b: Qkv<T>, c: Qkv<T>)
    ensures Append(a, Append(b, c)) == Append(Append(a, b), c)
  {
    assert a.q + (b.q + c.q) == (a.q + b.q) + c.q;
    assert a.k + (b.k + c.k) == (a.k + b.k) + c.k;
    assert a.v + (b.v + c.v) == (a.v + b.v) + c.v;
  }

  /** Weights taken apart one after the other make their concatenation taken apart. */
  lemma {:induction false} RegroupConcat<T>(a: seq<seq<T>>, b: seq<seq<T>>, qn: nat, h: nat)
    requires Groups(a, qn, h) && Groups(b, qn, h)
    ensures Groups(a + b, qn, h)
    ensures Regroup(a + b, qn, h) == Append(Regroup(a, qn, h), Regroup(b, qn, h))
  {
    if a == [] {
      var r := Regroup(b, qn, h);
      assert a + b == b;
      assert [] + r.q == r.q && [] + r.k == r.k && [] + r.v == r.v;
    } else {
      var rest := a[1..];
      assert (a + b)[1..] == rest + b;
      calc {
        Regroup(a + b, qn, h);
        Append(Split(a[0], qn, h), Regroup(rest + b, qn, h));
        { RegroupConcat(rest, b, qn, h); }
        Append(Split(a[0], qn, h), Append(Regroup(rest, qn, h), Regroup(b, qn, h)));
        { AppendAssociates(Split(a[0], qn, h), Regroup(rest, qn, h), Regroup(b, qn, h)); }
        Append(Regroup(a, qn, h), Regroup(b, qn, h));
      }
    }
  }

  lemma RegroupSnoc<T>(gs: seq<seq<T>>, i: nat, qn: nat, h: nat)
    requires Groups(gs, qn, h) && i < |gs|
    ensures Regroup(gs[..i + 1], qn, h) == Append(Regroup(gs[..i], qn, h), Split(gs[i], qn, h))
  {
    RegroupConcat(gs[..i], [gs[i]], qn, h);
    assert gs[..i + 1] == gs[..i] + [gs[i]];
    assert Regroup([gs[i]], qn, h) == Append(Split(gs[i], qn, h), Regroup([], qn, h));
  }

  // --------------------------------------------------------------------------
  // Nothing is lost
  // --------------------------------------------------------------------------

  /** The fused weight back from its three parts. */
  function Interleave<T>(p: Qkv<T>, qn: nat, h: nat): seq<T>
    requires h >= 1
    decreases |p.k|
  {
    if |p.q| < qn || |p.k| < h || |p.v| < h then []
    else p.q[..qn] + p.k[..h] + p.v[..h] + Interleave(Qkv(p.q[qn..], p.k[h..], p.v[h..]), qn, h)
  }

  /** Interleaving the parts gives the weight back. */
  lemma {:induction false} InterleaveRegroup<T>(gs: seq<seq<T>>, qn: nat, h: nat)
    requires Groups(gs, qn, h) && h >= 1
    ensures Interleave(Regroup(gs, qn, h), qn, h) == Flatten(gs)
  {
    if gs != [] {
      InterleaveRegroup(gs[1..], qn, h);
      var p, first, rest := Regroup(gs, qn, h), Split(gs[0], qn, h), Regroup(gs[1..], qn, h);
      assert p.q[..qn] == first.q && p.q[qn..] == rest.q;
      assert p.k[..h] == first.k && p.k[h..] == rest.k;
      assert p.v[..h] == first.v && p.v[h..] == rest.v;
      assert first.q + first.k + first.v == gs[0];
    }
  }

  // --------------------------------------------------------------------------
  // Cutting a weight into groups
  // --------------------------------------------------------------------------

  lemma FirstPiece(m: nat, w: nat)
    requires m >= 1
    ensures m * w - w == (m - 1) * w >= 0
  {
    ProductStep(m, w);
    ProductNonNegative(m - 1, w);
  }

  /** m pieces of w rows each. */
  function Cut<T>(x: seq<T>, m: nat, w: nat): (gs: seq<seq<T>>)
    requires |x| == m * w
    ensures |gs| == m && Flatten(gs) == x
    ensures forall i :: 0 <= i < m ==> |gs[i]| == w
  {
    if m == 0 then []
    else
      FirstPiece(m, w);
      [x[..w]] + Cut(x[w..], m - 1, w)
  }

  /** Pieces of one length are what cutting their concatenation gives. */
  lemma {:induction false} CutFlatten<T>(gs: seq<seq<T>>, w: nat)
    requires forall i :: 0 <= i < |gs| ==> |gs[i]| == w
    ensures |Flatten(gs)| == |gs| * w && Cut(Flatten(gs), |gs|, w) == gs
  {
    if gs != [] {
      var rest := gs[1..];
      CutFlatten(rest, w);
      FirstPiece(|gs|, w);
      var x := Flatten(gs);
      assert x[..w] == gs[0] && x[w..] == Flatten(rest);
    }
  }

  /** The reference on a weight of m groups: all queries, all keys and all values. */
  function TakenApart<T>(x: seq<T>, m: nat, qn: nat, h: nat): Qkv<T>
    requires |x| == m * (qn + 2 * h)
  {
    Regroup(Cut(x, m, qn + 2 * h), qn, h)
  }

  /** Interleaving the parts of a weight gives the weight back. */
  lemma InterleaveTaken<T>(x: seq<T>, m: nat, qn: nat, h: nat)
    requires |x| == m * (qn + 2 * h) && h >= 1
    ensures Interleave(TakenApart(x, m, qn, h), qn, h) == x
  {
    InterleaveRegroup(Cut(x, m, qn + 2 * h), qn, h);
  }

  /** torch.chunk: pieces of the rounded-up share, the last one possibly shorter. */
  function Chunk<T>(x: seq<T>, n: nat): seq<seq<T>>
    requires n >= 1
  {
    Pieces(x, (|x| + n - 1) / n)
  }

  function Pieces<T>(x: seq<T>, w: nat): seq<seq<T>> {
    if |x| <= w || w == 0 then [x] else [x[..w]] + Pieces(x[w..], w)
  }

  lemma {:induction false} PiecesOfGroups<T>(gs: seq<seq<T>>, w: nat)
    requires gs != [] && w >= 1 && forall i :: 0 <= i < |gs| ==> |gs[i]| == w
    ensures Pieces(Flatten(gs), w) == gs && |Flatten(gs)| == |gs| * w
  {
    var x, rest := Flatten(gs), gs[1..];
    assert gs == [gs[0]] + rest;
    if rest == [] {
      var none: seq<T> := [];
      assert Flatten(rest) == none;
      assert x == gs[0] + none == gs[0];
      assert |gs| * w == w;
    } else {
      PiecesOfGroups(rest, w);
      assert x[..w] == gs[0] && x[w..] == Flatten(rest);
      assert |gs| * w == (|gs| - 1) * w + w;
      ProductMonotone(w, 1, |rest|);
    }
  }

  lemma ChunkGroups<T>(gs: seq<seq<T>>, w: nat)
    requires gs != [] && w >= 1 && forall i :: 0 <= i < |gs| ==> |gs[i]| == w
    ensures Chunk(Flatten(gs), |gs|) == gs && |Flatten(gs)| == |gs| * w
  {
    PiecesOfGroups(gs, w);
    var n := |gs|;
    RoundedShare(n, w);
  }

  lemma RoundedShare(n: nat, w: nat)
    requires n >= 1
    ensures (n * w + n - 1) / n == w
  {
    var q, r := (n * w + n - 1) / n, (n * w + n - 1) % n;
    assert n * (q - w) == n - 1 - r;
    SmallMultiple(q - w, n);
  }

  /** The sizes the code derives from the row count of m groups. */
  lemma DerivedSizes(rows: nat, m: nat, n: nat, h: nat)
    requires m >= 1 && rows == m * (n * h + 2 * h)
    ensures rows % (n + 2) == 0
    ensures var kv := rows / (n + 2); kv == m * h && kv * n / m == n * h && kv / m == h
  {
    var kv := m * h;
    assert rows == kv * (n + 2) by {
      assert n * h + 2 * h == h * (n + 2);
      assert m * (h * (n + 2)) == (m * h) * (n + 2);
    }
    NoRemainder(kv, n + 2);
    assert kv * n == (n * h) * m by {
      assert (m * h) * n == (n * h) * m;
    }
    NoRemainder(n * h, m);
    assert kv == h * m;
    NoRemainder(h, m);
  }

  // --------------------------------------------------------------------------
  // The three loops
  // --------------------------------------------------------------------------

  /** Chunk, split every chunk, and collect: the loop all three share, on one tensor of groups. */
  method SplitChunks<T>(tensor: seq<T>, m: nat, qn: nat, kn: nat, acc: Qkv<T>, ghost gs: seq<seq<T>>)
    returns (r: Qkv<T>)
    requires m >= 1 && tensor == Flatten(gs) && |gs| == m && Groups(gs, qn, kn) && qn + 2 * kn >= 1
    ensures r == Append(acc, Regroup(gs, qn, kn))
  {
    ChunkGroups(gs, qn + 2 * kn);
    var chunks := Chunk(tensor, m);
    var i := 0;
    r := acc;
    while i < |chunks|
      invariant 0 <= i <= |chunks|
      invariant r == Append(acc, Regroup(gs[..i], qn, kn))
    {
      var chunk := chunks[i];
      r := Qkv(r.q + chunk[..qn], r.k + chunk[qn..qn + kn], r.v + chunk[qn + kn..]);
      RegroupSnoc(gs, i, qn, kn);
      AppendAssociates(acc, Regroup(gs[..i], qn, kn), Split(chunk, qn, kn));
      i := i + 1;
    }
    assert gs[..i] == gs;
  }

  /** The merger's `_split_tensors`, on the concatenated weight of kvHeads groups. */
  method SplitTensors<T>(tensor: seq<T>, heads: nat, kvHeads: nat, ghost n: nat, ghost h: nat)
    returns (r: Qkv<T>)
    requires kvHeads >= 1 && h >= 1 && heads == n * kvHeads
    requires |tensor| == kvHeads * (n * h + 2 * h)
    ensures r == TakenApart(tensor, kvHeads, n * h, h)
  {
    ghost var gs := Cut(tensor, kvHeads, n * h + 2 * h);
    NoRemainder(n, kvHeads);
    assert heads % kvHeads == 0;
    var perKv := heads / kvHeads;
    DerivedSizes(|tensor|, kvHeads, n, h);
    assert |tensor| % (perKv + 2) == 0;
    var kvSize := |tensor| / (perKv + 2);
    r := SplitChunks(tensor, kvHeads, kvSize * perKv / kvHeads, kvSize / kvHeads, Qkv([], [], []), gs);
    assert [] + r.q == r.q && [] + r.k == r.k && [] + r.v == r.v;
  }

  /** Every shard cut into gp groups of w rows. */
  ghost function CutAll<T>(shards: seq<seq<T>>, gp: nat, w: nat): (gss: seq<seq<seq<T>>>)
    requires forall i :: 0 <= i < |shards| ==> |shards[i]| == gp * w
    ensures |gss| == |shards|
  {
    seq(|shards|, i requires 0 <= i < |shards| => Cut(shards[i], gp, w))
  }

  lemma {:induction false} FlattenTwice<T>(gss: seq<seq<seq<T>>>, shards: seq<seq<T>>)
    requires |shards| == |gss| && forall i :: 0 <= i < |gss| ==> shards[i] == Flatten(gss[i])
    ensures Flatten(Flatten(gss)) == Flatten(shards)
  {
    if gss != [] {
      FlattenTwice(gss[1..], shards[1..]);
      FlattenConcat(gss[0], Flatten(gss[1..]));
    }
  }

  lemma {:induction false} FlattenCounts<T>(gss: seq<seq<seq<T>>>, gp: nat, w: nat)
    requires forall i :: 0 <= i < |gss| ==> |gss[i]| == gp && forall j :: 0 <= j < gp ==> |gss[i][j]| == w
    ensures |Flatten(gss)| == |gss| * gp && forall j :: 0 <= j < |Flatten(gss)| ==> |Flatten(gss)[j]| == w
  {
    if gss != [] {
      FlattenCounts(gss[1..], gp, w);
      FirstPiece(|gss|, gp);
    }
  }

  /** The groups of the shards, one shard after the other, are the groups of the full weight. */
  lemma GroupsOfShards<T>(shards: seq<seq<T>>, gp: nat, w: nat)
    requires forall i :: 0 <= i < |shards| ==> |shards[i]| == gp * w
    ensures |Flatten(shards)| == |shards| * gp * w
    ensures Flatten(CutAll(shards, gp, w)) == Cut(Flatten(shards), |shards| * gp, w)
  {
    var gss := CutAll(shards, gp, w);
    FlattenTwice(gss, shards);
    FlattenCounts(gss, gp, w);
    CutFlatten(Flatten(gss), w);
  }

  method SplitShards<T>(shards: seq<seq<T>>, groups: nat, qn: nat, kn: nat)
    returns (r: Qkv<T>)
    requires groups >= 1 && qn + 2 * kn >= 1
    requires forall i :: 0 <= i < |shards| ==> |shards[i]| == groups * (qn + 2 * kn)
    ensures |Flatten(shards)| == |shards| * groups * (qn + 2 * kn)
    ensures r == TakenApart(Flatten(shards), |shards| * groups, qn, kn)
  {
    ghost var gss := CutAll(shards, groups, qn + 2 * kn);
    GroupsOfShards(shards, groups, qn + 2 * kn);
    r := Qkv([], [], []);
    var i := 0;
    while i < |shards|
      invariant 0 <= i <= |shards|
      invariant Groups(Flatten(gss[..i]), qn, kn) && r == Regroup(Flatten(gss[..i]), qn, kn)
    {
      r := SplitChunks(shards[i], groups, qn, kn, r, gss[i]);
      FlattenOneMore(gss, i);
      RegroupConcat(Flatten(gss[..i]), gss[i], qn, kn);
      i := i + 1;
    }
    assert gss[..i] == gss;
  }

  lemma HeadCounts(n: nat, gp: nat, tp: nat, heads: nat, kvHeads: nat)
    requires tp >= 1 && gp >= 1 && kvHeads == gp * tp && heads == n * kvHeads
    ensures kvHeads >= 1 && heads % kvHeads == 0 && heads / kvHeads == n && kvHeads / tp == gp
  {
    ProductMonotone(gp, 1, tp);
    NoRemainder(n, kvHeads);
    NoRemainder(gp, tp);
  }

  /** `default_tp_concat_fn` on the shards of the tensor-parallel ranks, gp groups each. */
  method TpConcat<T>(shards: seq<seq<T>>, heads: nat, kvHeads: nat, tp: nat, ghost n: nat, ghost h: nat, ghost gp: nat)
    returns (r: Qkv<T>)
    requires tp >= 1 && gp >= 1 && h >= 1 && kvHeads == gp * tp && heads == n * kvHeads
    requires |shards| == tp && forall i :: 0 <= i < tp ==> |shards[i]| == gp * (n * h + 2 * h)
    ensures |Flatten(shards)| == kvHeads * (n * h + 2 * h)
    ensures r == TakenApart(Flatten(shards), kvHeads, n * h, h)
  {
    HeadCounts(n, gp, tp, heads, kvHeads);
    assert heads % kvHeads == 0;
    var perKv, groups := heads / kvHeads, kvHeads / tp;
    DerivedSizes(|shards[0]|, gp, n, h);
    assert |shards[0]| % (perKv + 2) == 0;
    var kvSize := |shards[0]| / (perKv + 2);
    r := SplitShards(shards, groups, kvSize * perKv / groups, kvSize / groups);
    assert tp * gp == gp * tp;
  }

  lemma SliceShift<T>(x: seq<T>, y: seq<T>, a: nat, b: nat)
    requires a <= b <= |y|
    ensures (x + y)[|x| + a..|x| + b] == y[a..b]
  {
  }

  /** Piece i of equally long pieces, in their concatenation. */
  lemma {:induction false} FlattenSlice<T>(xs: seq<seq<T>>, w: nat, i: nat)
    requires i < |xs| && forall j :: 0 <= j < |xs| ==> |xs[j]| == w
    ensures 0 <= i * w <= (i + 1) * w <= |Flatten(xs)|
    ensures Flatten(xs)[i * w..(i + 1) * w] == xs[i]
  {
    assert (i + 1) * w == i * w + w;
    if i > 0 {
      FlattenSlice(xs[1..], w, i - 1);
      assert i * w == (i - 1) * w + w;
      SliceShift(xs[0], Flatten(xs[1..]), (i - 1) * w, i * w);
    }
  }

  /** The sizes `convert_qkv_shard` derives from the head counts, for gp query groups a rank. */
  lemma ShardSizes(tp: nat, gp: nat, size: nat, rows: nat)
    requires tp >= 1 && gp >= 1 && rows == gp * tp * size
    ensures rows / tp == gp * size && gp * size / gp == size
  {
    assert rows == (gp * size) * tp;
    NoRemainder(gp * size, tp);
    SwapProduct(gp, size);
    NoRemainder(size, gp);
  }

  lemma SwapProduct(a: int, b: int)
    ensures a * b == b * a
  {
  }

  lemma AddGroups(gp: nat, qn: nat, kn: nat)
    ensures gp * qn + 2 * (gp * kn) == gp * (qn + 2 * kn)
  {
  }

  method SplitFull<T>(full: seq<T>, tp: nat, total: nat, groups: nat, qn: nat, kn: nat)
    returns (r: Qkv<T>)
    requires groups >= 1 && qn + 2 * kn >= 1 && total == groups * (qn + 2 * kn) && |full| == tp * total
    ensures |full| == tp * groups * (qn + 2 * kn)
    ensures r == TakenApart(full, tp * groups, qn, kn)
  {
    ghost var shards := Cut(full, tp, total);
    ghost var gss := CutAll(shards, groups, qn + 2 * kn);
    GroupsOfShards(shards, groups, qn + 2 * kn);
    r := Qkv([], [], []);
    var i := 0;
    while i < tp
      invariant 0 <= i <= tp
      invariant Groups(Flatten(gss[..i]), qn, kn) && r == Regroup(Flatten(gss[..i]), qn, kn)
    {
      FlattenSlice(shards, total, i);
      var part := full[i * total..(i + 1) * total];
      r := SplitChunks(part, groups, qn, kn, r, gss[i]);
      FlattenOneMore(gss, i);
      RegroupConcat(Flatten(gss[..i]), gss[i], qn, kn);
      i := i + 1;
    }
    assert gss[..i] == gss;
  }

  lemma FullRows(gp: nat, tp: nat, w: nat)
    ensures (gp * tp) * w == tp * (gp * w)
  {
    assert gp * tp == tp * gp;
    assert (tp * gp) * w == tp * (gp * w);
  }

  lemma PositiveFactor(a: int, b: int)
    requires a >= 0 && b >= 0 && a * b >= 1
    ensures a >= 1 && b >= 1
  {
  }

  /** `convert_qkv_shard` on the full weight, shard by shard, when there are at least tp kv heads.
      The query groups, gp a rank, need not be the kv heads: qn query rows and kn key rows fall to
      each. */
  method ConvertQkvShard<T>(full: seq<T>, headDim: nat, heads: nat, kvHeads: nat, numQueryGroups: nat, tp: nat,
                            ghost gp: nat, ghost qn: nat, ghost kn: nat)
    returns (r: Qkv<T>)
    requires headDim >= 1 && kvHeads >= tp >= 1 && gp >= 1 && numQueryGroups == gp * tp
    requires headDim * heads == numQueryGroups * qn && headDim * kvHeads == numQueryGroups * kn
    requires |full| == numQueryGroups * (qn + 2 * kn)
    ensures r == TakenApart(full, numQueryGroups, qn, kn)
  {
    ShardSizes(tp, gp, qn, headDim * heads);
    ShardSizes(tp, gp, kn, headDim * kvHeads);
    AddGroups(gp, qn, kn);
    NoRemainder(gp, tp);
    FullRows(gp, tp, qn + 2 * kn);
    ProductMonotone(headDim, 1, kvHeads);
    PositiveFactor(numQueryGroups, kn);
    var qSize, kvSize, groups := headDim * heads / tp, headDim * kvHeads / tp, numQueryGroups / tp;
    assert groups == gp && qSize == gp * qn && kvSize == gp * kn;
    r := SplitFull(full, tp, qSize + 2 * kvSize, groups, qSize / groups, kvSize / groups);
    SwapProduct(tp, gp);
  }

  // --------------------------------------------------------------------------
  // They agree
  // --------------------------------------------------------------------------

  lemma HeadRows(h: nat, n: nat, kvHeads: nat)
    ensures h * (n * kvHeads) == kvHeads * (n * h) && h * kvHeads == kvHeads * h
  {
  }

  /** The shards split one by one, their concatenation split at once, and the full weight converted
      give the same queries, keys and values; interleaving those gives the full weight back. */
  method TakeApartThreeWays<T>(shards: seq<seq<T>>, headDim: nat, heads: nat, kvHeads: nat, tp: nat,
                               ghost n: nat, ghost gp: nat)
    returns (a: Qkv<T>, b: Qkv<T>, c: Qkv<T>)
    requires tp >= 1 && gp >= 1 && headDim >= 1 && kvHeads == gp * tp && heads == n * kvHeads
    requires |shards| == tp && forall i :: 0 <= i < tp ==> |shards[i]| == gp * (n * headDim + 2 * headDim)
    ensures a == b == c && Interleave(a, n * headDim, headDim) == Flatten(shards)
  {
    HeadCounts(n, gp, tp, heads, kvHeads);
    a := TpConcat(shards, heads, kvHeads, tp, n, headDim, gp);
    b := SplitTensors(Flatten(shards), heads, kvHeads, n, headDim);
    HeadRows(headDim, n, kvHeads);
    ProductMonotone(tp, 1, gp);
    c := ConvertQkvShard(Flatten(shards), headDim, heads, kvHeads, kvHeads, tp, gp, n * headDim, headDim);
    InterleaveTaken(Flatten(shards), kvHeads, n * headDim, headDim);
  }
}
