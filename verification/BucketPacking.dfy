/** The bucket format shared by the NIXL and NCCL checkpoint engines: how a stream of
    named weights is cut into buckets of a fixed byte capacity, what a bucket's metadata
    dictionary says, and what a receiver reads back through that dictionary. */
module BucketPacking {
  import opened Lists
  import opened Shapes

  newtype byte = x: int | 0 <= x < 256

  /** A tensor as it travels: its name, shape, element size, and row-major bytes. */
  datatype Weight = Weight(name: string, shape: seq<nat>, itemsize: nat, bytes: seq<byte>)

  function ByteSize(shape: seq<nat>, itemsize: nat): nat {
    itemsize * Numel(shape)
  }

  predicate WellFormed(w: Weight) {
    |w.bytes| == ByteSize(w.shape, w.itemsize)
  }

  ghost predicate AllWellFormed(ws: seq<Weight>) {
    forall i :: 0 <= i < |ws| ==> WellFormed(ws[i])
  }

  ghost predicate AllFit(ws: seq<Weight>, cap: nat) {
    forall i :: 0 <= i < |ws| ==> |ws[i].bytes| <= cap
  }

  /** The bytes of a bucket: its weights one after another. */
  function Payload(b: seq<Weight>): seq<byte> {
    if b == [] then [] else Payload(b[..|b| - 1]) + b[|b| - 1].bytes
  }

  lemma PayloadSnoc(b: seq<Weight>, w: Weight)
    ensures Payload(b + [w]) == Payload(b) + w.bytes
  {
    assert (b + [w])[..|b|] == b;
  }

  // --------------------------------------------------------------------------
  // Bucket metadata
  // --------------------------------------------------------------------------

  datatype Meta = Meta(name: string, shape: seq<nat>, itemsize: nat, offset: nat)

  function MetaOf(w: Weight, offset: nat): Meta {
    Meta(w.name, w.shape, w.itemsize, offset)
  }

  /** Position of a name in an insertion-ordered dictionary, |d| when it is absent. */
  function Find(d: seq<Meta>, name: string): (i: nat)
    ensures i <= |d|
    ensures i < |d| ==> d[i].name == name
    ensures forall k :: 0 <= k < i ==> d[k].name != name
  {
    if d == [] then 0
    else if d[0].name == name then 0
    else 1 + Find(d[1..], name)
  }

  /** Dictionary assignment: a new key goes last, an old key keeps its place. */
  function Put(d: seq<Meta>, m: Meta): seq<Meta> {
    var i := Find(d, m.name);
    if i < |d| then d[i := m] else d + [m]
  }

  /** The metadata dictionary built while a bucket is filled. */
  function Metas(b: seq<Weight>): seq<Meta> {
    if b == [] then []
    else
      var init := b[..|b| - 1];
      Put(Metas(init), MetaOf(b[|b| - 1], |Payload(init)|))
  }

  lemma MetasSnoc(b: seq<Weight>, w: Weight)
    ensures Metas(b + [w]) == Put(Metas(b), MetaOf(w, |Payload(b)|))
  {
    assert (b + [w])[..|b|] == b;
  }

  /** The slice a metadata entry describes lies inside a buffer. */
  predicate InRange(m: Meta, buf: seq<byte>) {
    m.offset + ByteSize(m.shape, m.itemsize) <= |buf|
  }

  /** What a receiver yields for one metadata entry. */
  function View(buf: seq<byte>, m: Meta): Weight
    requires InRange(m, buf)
  {
    Weight(m.name, m.shape, m.itemsize, buf[m.offset..m.offset + ByteSize(m.shape, m.itemsize)])
  }

  lemma {:induction false} MetasInRange(b: seq<Weight>)
    requires AllWellFormed(b)
    ensures forall i :: 0 <= i < |Metas(b)| ==> InRange(Metas(b)[i], Payload(b))
  {
    if b != [] {
      MetasInRange(b[..|b| - 1]);
    }
  }

  /** A receiver's view of a whole bucket, entry by entry. */
  function Delivered(b: seq<Weight>): (d: seq<Weight>)
    requires AllWellFormed(b)
    ensures |d| == |Metas(b)|
  {
    MetasInRange(b);
    seq(|Metas(b)|, i requires 0 <= i < |Metas(b)| => View(Payload(b), Metas(b)[i]))
  }

  lemma SameView(payload: seq<byte>, buf: seq<byte>, m: Meta)
    requires payload <= buf && InRange(m, payload)
    ensures InRange(m, buf) && View(buf, m) == View(payload, m)
  {
    var hi := m.offset + ByteSize(m.shape, m.itemsize);
    assert buf[m.offset..hi] == payload[m.offset..hi];
  }

  /** Any buffer that starts with the payload gives the same views. */
  lemma ViewOfPrefix(b: seq<Weight>, buf: seq<byte>, i: nat)
    requires AllWellFormed(b)
    requires Payload(b) <= buf
    requires i < |Metas(b)|
    ensures InRange(Metas(b)[i], buf)
    ensures View(buf, Metas(b)[i]) == Delivered(b)[i]
  {
    MetasInRange(b);
    SameView(Payload(b), buf, Metas(b)[i]);
  }

  ghost predicate DistinctNames(b: seq<Weight>) {
    forall i, j :: 0 <= i < j < |b| ==> b[i].name != b[j].name
  }

  ghost predicate DistinctKeys(d: seq<Meta>) {
    forall i, j :: 0 <= i < j < |d| ==> d[i].name != d[j].name
  }

  lemma {:induction false} MetasDistinct(b: seq<Weight>)
    ensures DistinctKeys(Metas(b)) && |Metas(b)| <= |b|
  {
    if b != [] {
      MetasDistinct(b[..|b| - 1]);
    }
  }

  lemma {:induction false} MetasOfDistinct(b: seq<Weight>)
    requires DistinctNames(b)
    ensures |Metas(b)| == |b|
    ensures forall i :: 0 <= i < |b| ==> Metas(b)[i] == MetaOf(b[i], |Payload(b[..i])|)
  {
    if b != [] {
      var init, last := b[..|b| - 1], b[|b| - 1];
      MetasOfDistinct(init);
      var d := Metas(init);
      forall k | 0 <= k < |d|
        ensures d[k].name != last.name
      {
        assert d[k].name == init[k].name == b[k].name;
      }
      var i := Find(d, last.name);
      assert i == |d|;
      assert Metas(b) == d + [MetaOf(last, |Payload(init)|)];
      forall i | 0 <= i < |b|
        ensures Metas(b)[i] == MetaOf(b[i], |Payload(b[..i])|)
      {
        assert i < |init| ==> init[..i] == b[..i];
      }
    }
  }

  lemma {:induction false} PayloadSlice(b: seq<Weight>, i: nat)
    requires i < |b|
    ensures |Payload(b[..i])| + |b[i].bytes| <= |Payload(b)|
    ensures Payload(b)[|Payload(b[..i])|..|Payload(b[..i])| + |b[i].bytes|] == b[i].bytes
  {
    var init := b[..|b| - 1];
    if i < |init| {
      PayloadSlice(init, i);
      assert init[..i] == b[..i];
      var lo := |Payload(b[..i])|;
      assert Payload(b)[lo..lo + |b[i].bytes|] == Payload(init)[lo..lo + |b[i].bytes|];
    } else {
      assert b[..i] == init;
    }
  }

  /** A bucket comes back exactly as it was filled just when its names are distinct: a
      repeated name overwrites the earlier dictionary entry, and one weight is lost. */
  lemma DeliveredExactly(b: seq<Weight>)
    requires AllWellFormed(b)
    ensures Delivered(b) == b <==> DistinctNames(b)
    ensures |Delivered(b)| <= |b|
    ensures |Delivered(b)| == |b| <==> DistinctNames(b)
  {
    MetasDistinct(b);
    if DistinctNames(b) {
      MetasOfDistinct(b);
      MetasInRange(b);
      forall i | 0 <= i < |b|
        ensures Delivered(b)[i] == b[i]
      {
        PayloadSlice(b, i);
      }
    } else {
      RepeatedNameLosesWeight(b);
    }
  }

  /** An entry whose name is already there takes that entry's place. */
  lemma PutKeepsLength(d: seq<Meta>, m: Meta, i: nat)
    requires i < |d| && d[i].name == m.name
    ensures |Put(d, m)| == |d|
  {
  }

  lemma LastRepeats(init: seq<Weight>, last: Weight) returns (i: nat)
    requires DistinctNames(init) && !DistinctNames(init + [last])
    ensures i < |init| && init[i].name == last.name
  {
    var b := init + [last];
    var j, k :| 0 <= j < k < |b| && b[j].name == b[k].name;
    i := j;
  }

  lemma OneMoreEntry(init: seq<Weight>, last: Weight)
    ensures |Metas(init + [last])| <= |Metas(init)| + 1
  {
    MetasSnoc(init, last);
  }

  lemma {:induction false} RepeatedNameLosesWeight(b: seq<Weight>)
    requires !DistinctNames(b)
    ensures |Metas(b)| < |b|
  {
    var init, last := b[..|b| - 1], b[|b| - 1];
    assert b == init + [last];
    if !DistinctNames(init) {
      RepeatedNameLosesWeight(init);
      OneMoreEntry(init, last);
    } else {
      var i := LastRepeats(init, last);
      MetasOfDistinct(init);
      MetasSnoc(init, last);
      PutKeepsLength(Metas(init), MetaOf(last, |Payload(init)|), i);
    }
  }

  // --------------------------------------------------------------------------
  // Greedy packing
  // --------------------------------------------------------------------------

  /** The buckets that go out when cur is being filled and ws is still to come. */
  function PackFrom(cap: nat, cur: seq<Weight>, ws: seq<Weight>): (bs: seq<seq<Weight>>)
    ensures |bs| >= 1
    decreases |ws|
  {
    if ws == [] then [cur]
    else if |Payload(cur)| + |ws[0].bytes| > cap then [cur] + PackFrom(cap, [ws[0]], ws[1..])
    else PackFrom(cap, cur + [ws[0]], ws[1..])
  }

  function Buckets(cap: nat, ws: seq<Weight>): (bs: seq<seq<Weight>>)
    ensures |bs| >= 1
  {
    PackFrom(cap, [], ws)
  }

  ghost predicate AllBucketsFit(cap: nat, bs: seq<seq<Weight>>) {
    forall i :: 0 <= i < |bs| ==> |Payload(bs[i])| <= cap
  }

  /** Two neighbouring buckets never fit in one. */
  ghost predicate NeighboursOverflow(cap: nat, bs: seq<seq<Weight>>) {
    forall i :: 0 <= i < |bs| - 1 ==> |Payload(bs[i])| + |Payload(bs[i + 1])| > cap
  }

  /** The first bucket only ever grows by appending. */
  lemma {:induction false} FirstBucketExtends(cap: nat, cur: seq<Weight>, ws: seq<Weight>)
    ensures cur <= PackFrom(cap, cur, ws)[0]
    decreases |ws|
  {
    if ws != [] && |Payload(cur)| + |ws[0].bytes| <= cap {
      FirstBucketExtends(cap, cur + [ws[0]], ws[1..]);
    }
  }

  lemma {:induction false} PayloadMonotone(a: seq<Weight>, b: seq<Weight>)
    requires a <= b
    ensures |Payload(a)| <= |Payload(b)|
  {
    if |a| < |b| {
      assert b[..|b| - 1][..|a|] == a;
      PayloadMonotone(a, b[..|b| - 1]);
    } else {
      assert a == b;
    }
  }

  lemma PayloadOfOne(w: Weight)
    ensures Payload([w]) == w.bytes
  {
    PayloadSnoc([], w);
    assert [] + [w] == [w];
  }

  /** A bucket that does not fit together with the first of the others, put before them. */
  lemma BucketInFront(cap: nat, cur: seq<Weight>, rest: seq<seq<Weight>>)
    requires |Payload(cur)| <= cap && rest != [] && |Payload(cur)| + |Payload(rest[0])| > cap
    requires AllBucketsFit(cap, rest) && NeighboursOverflow(cap, rest)
    ensures Flatten([cur] + rest) == cur + Flatten(rest)
    ensures AllBucketsFit(cap, [cur] + rest) && NeighboursOverflow(cap, [cur] + rest)
  {
    var all := [cur] + rest;
    assert all[1..] == rest;
    forall i | 0 <= i < |all| - 1
      ensures |Payload(all[i])| + |Payload(all[i + 1])| > cap
    {
      if i > 0 {
        assert all[i] == rest[i - 1] && all[i + 1] == rest[i - 1 + 1];
      }
    }
  }

  lemma {:induction false} PackFromSound(cap: nat, cur: seq<Weight>, ws: seq<Weight>)
    requires |Payload(cur)| <= cap && AllFit(ws, cap)
    ensures Flatten(PackFrom(cap, cur, ws)) == cur + ws
    ensures AllBucketsFit(cap, PackFrom(cap, cur, ws))
    ensures NeighboursOverflow(cap, PackFrom(cap, cur, ws))
    decreases |ws|
  {
    if ws == [] {
      assert Flatten([cur]) == cur + Flatten<Weight>([]);
    } else {
      var w := ws[0];
      assert ws == [w] + ws[1..];
      if |Payload(cur)| + |w.bytes| > cap {
        PayloadOfOne(w);
        PackFromSound(cap, [w], ws[1..]);
        FirstBucketExtends(cap, [w], ws[1..]);
        PayloadMonotone([w], PackFrom(cap, [w], ws[1..])[0]);
        BucketInFront(cap, cur, PackFrom(cap, [w], ws[1..]));
      } else {
        PayloadSnoc(cur, w);
        PackFromSound(cap, cur + [w], ws[1..]);
        assert cur + [w] + ws[1..] == cur + ws;
      }
    }
  }

  /** Packing keeps every weight in order, never overfills, and never leaves two
      neighbours that one bucket could have held. */
  lemma PackingSound(cap: nat, ws: seq<Weight>)
    requires AllFit(ws, cap)
    ensures Flatten(Buckets(cap, ws)) == ws
    ensures AllBucketsFit(cap, Buckets(cap, ws))
    ensures NeighboursOverflow(cap, Buckets(cap, ws))
  {
    PackFromSound(cap, [], ws);
    assert [] + ws == ws;
  }

  /** Greedy stays ahead: a competing split that still has p + cur + ws to place, where
      p is already behind the greedy packing, needs at least as many buckets. */
  lemma {:induction false} GreedyStaysAhead(cap: nat, p: seq<Weight>, cur: seq<Weight>, ws: seq<Weight>,
                                            split: seq<seq<Weight>>)
    requires Flatten(split) == p + cur + ws
    requires AllBucketsFit(cap, split) && split != []
    ensures |PackFrom(cap, cur, ws)| <= |split|
    decreases |ws|
  {
    if ws != [] {
      var w := ws[0];
      assert ws == [w] + ws[1..];
      if |Payload(cur)| + |w.bytes| > cap {
        var first := split[0];
        var before := p + cur;
        assert Flatten(split) == before + ([w] + ws[1..]);
        if |first| > |before| {
          assert first[..|before| + 1] == Flatten(split)[..|before| + 1] == before + [w];
          PayloadMonotone(before + [w], first);
          PayloadSnoc(before, w);
          PayloadOfSuffix(p, cur);
          assert false;
        }
        var p' := before[|first|..];
        assert Flatten(split[1..]) == Flatten(split)[|first|..] == p' + [w] + ws[1..];
        assert split[1..] != [];
        GreedyStaysAhead(cap, p', [w], ws[1..], split[1..]);
      } else {
        assert p + (cur + [w]) + ws[1..] == p + cur + ws;
        GreedyStaysAhead(cap, p, cur + [w], ws[1..], split);
      }
    }
  }

  lemma {:induction false} PayloadOfSuffix(p: seq<Weight>, cur: seq<Weight>)
    ensures |Payload(cur)| <= |Payload(p + cur)|
  {
    if cur != [] {
      PayloadOfSuffix(p, cur[..|cur| - 1]);
      assert (p + cur)[..|p + cur| - 1] == p + cur[..|cur| - 1];
    }
  }

  /** No order-preserving split into buckets of this capacity uses fewer buckets. */
  lemma PackingOptimal(cap: nat, ws: seq<Weight>, split: seq<seq<Weight>>)
    requires Flatten(split) == ws && AllBucketsFit(cap, split) && split != []
    ensures |Buckets(cap, ws)| <= |split|
  {
    assert [] + [] + ws == ws;
    GreedyStaysAhead(cap, [], [], ws, split);
  }

  function TotalBytes(bs: seq<seq<Weight>>): nat {
    if bs == [] then 0 else |Payload(bs[0])| + TotalBytes(bs[1..])
  }

  lemma RestOverflows(cap: nat, bs: seq<seq<Weight>>, rest: seq<seq<Weight>>)
    requires NeighboursOverflow(cap, bs) && |bs| > 1 && rest == bs[1..]
    ensures NeighboursOverflow(cap, rest) && |Payload(bs[0])| + |Payload(rest[0])| > cap
  {
    forall i | 0 <= i < |rest| - 1
      ensures |Payload(rest[i])| + |Payload(rest[i + 1])| > cap
    {
      assert rest[i] == bs[i + 1] && rest[i + 1] == bs[i + 1 + 1];
    }
    assert rest[0] == bs[0 + 1];
  }

  lemma OneMoreBucket(n: int, cap: int)
    ensures (n - 1) * cap == (n - 2) * cap + cap
  {
  }

  lemma {:induction false} OverflowBoundsCount(cap: nat, bs: seq<seq<Weight>>)
    requires NeighboursOverflow(cap, bs) && |bs| >= 1
    ensures (|bs| - 1) * cap <= 2 * TotalBytes(bs) - |Payload(bs[0])|
  {
    if |bs| == 1 {
      assert TotalBytes(bs[1..]) == 0;
    } else {
      var rest := bs[1..];
      RestOverflows(cap, bs, rest);
      OverflowBoundsCount(cap, rest);
      OneMoreBucket(|bs|, cap);
    }
  }

  lemma {:induction false} PayloadConcat(a: seq<Weight>, b: seq<Weight>)
    ensures Payload(a + b) == Payload(a) + Payload(b)
  {
    if b == [] {
      assert a + b == a;
    } else {
      var c, init, last := a + b, b[..|b| - 1], b[|b| - 1];
      PayloadConcat(a, init);
      assert c[..|c| - 1] == a + init && c[|c| - 1] == last;
      Associates(Payload(a), Payload(init), last.bytes);
    }
  }

  lemma {:induction false} TotalIsPayload(bs: seq<seq<Weight>>)
    ensures TotalBytes(bs) == |Payload(Flatten(bs))|
  {
    if bs != [] {
      TotalIsPayload(bs[1..]);
      PayloadConcat(bs[0], Flatten(bs[1..]));
    }
  }

  /** At most twice the ideal number of full buckets, plus one. */
  lemma BucketCountBound(cap: nat, ws: seq<Weight>)
    requires AllFit(ws, cap)
    ensures (|Buckets(cap, ws)| - 1) * cap <= 2 * |Payload(ws)|
  {
    PackingSound(cap, ws);
    OverflowBoundsCount(cap, Buckets(cap, ws));
    TotalIsPayload(Buckets(cap, ws));
  }

  // --------------------------------------------------------------------------
  // The delivered stream
  // --------------------------------------------------------------------------

  ghost predicate AllBucketsWellFormed(bs: seq<seq<Weight>>) {
    forall i :: 0 <= i < |bs| ==> AllWellFormed(bs[i])
  }

  /** Everything a receiver yields for a list of buckets. */
  function DeliveredStream(bs: seq<seq<Weight>>): seq<Weight>
    requires AllBucketsWellFormed(bs)
  {
    if bs == [] then [] else DeliveredStream(bs[..|bs| - 1]) + Delivered(bs[|bs| - 1])
  }

  lemma {:induction false} StreamIsFlatten(bs: seq<seq<Weight>>)
    requires AllBucketsWellFormed(bs)
    ensures |DeliveredStream(bs)| <= |Flatten(bs)|
    ensures DeliveredStream(bs) == Flatten(bs) <==> forall i :: 0 <= i < |bs| ==> DistinctNames(bs[i])
    ensures |DeliveredStream(bs)| == |Flatten(bs)| <==> forall i :: 0 <= i < |bs| ==> DistinctNames(bs[i])
  {
    if bs != [] {
      var init, last := bs[..|bs| - 1], bs[|bs| - 1];
      StreamIsFlatten(init);
      DeliveredExactly(last);
      FlattenSnoc(init, last);
      assert bs == init + [last];
      if forall i :: 0 <= i < |bs| ==> DistinctNames(bs[i]) {
        assert forall i :: 0 <= i < |init| ==> init[i] == bs[i];
      } else {
        var i :| 0 <= i < |bs| && !DistinctNames(bs[i]);
        assert i < |init| ==> init[i] == bs[i];
      }
    }
  }

  lemma {:induction false} PackFromWellFormed(cap: nat, cur: seq<Weight>, ws: seq<Weight>)
    requires AllWellFormed(cur) && AllWellFormed(ws)
    ensures AllBucketsWellFormed(PackFrom(cap, cur, ws))
    decreases |ws|
  {
    if ws != [] {
      if |Payload(cur)| + |ws[0].bytes| > cap {
        PackFromWellFormed(cap, [ws[0]], ws[1..]);
      } else {
        PackFromWellFormed(cap, cur + [ws[0]], ws[1..]);
      }
    }
  }

  lemma BucketsWellFormed(cap: nat, ws: seq<Weight>)
    requires AllWellFormed(ws)
    ensures AllBucketsWellFormed(Buckets(cap, ws))
  {
    PackFromWellFormed(cap, [], ws);
  }

  /** A stream cut into buckets is read back unchanged exactly when no bucket holds the
      same name twice; distinct names throughout are enough. */
  lemma StreamDeliveredExactly(cap: nat, ws: seq<Weight>)
    requires AllWellFormed(ws) && AllFit(ws, cap)
    ensures AllBucketsWellFormed(Buckets(cap, ws))
    ensures DeliveredStream(Buckets(cap, ws)) == ws
            <==> forall i :: 0 <= i < |Buckets(cap, ws)| ==> DistinctNames(Buckets(cap, ws)[i])
    ensures DistinctNames(ws) ==> DeliveredStream(Buckets(cap, ws)) == ws
  {
    BucketsWellFormed(cap, ws);
    PackingSound(cap, ws);
    StreamIsFlatten(Buckets(cap, ws));
    if DistinctNames(ws) {
      DistinctInEveryPart(Buckets(cap, ws));
    }
  }

  /** Two weights of the same name that fit into one bucket do not both come back. */
  lemma RepeatedNameIsLost(cap: nat, w: Weight, v: Weight)
    requires WellFormed(w) && WellFormed(v) && w.name == v.name && |w.bytes| + |v.bytes| <= cap
    ensures AllBucketsWellFormed(Buckets(cap, [w, v])) && DeliveredStream(Buckets(cap, [w, v])) != [w, v]
  {
    var ws := [w, v];
    PackedTogether(cap, w, v);
    StreamDeliveredExactly(cap, ws);
    assert ws[0].name == ws[1].name;
    assert Buckets(cap, ws)[0] == ws;
  }

  lemma PackedTogether(cap: nat, w: Weight, v: Weight)
    requires |w.bytes| + |v.bytes| <= cap
    ensures Buckets(cap, [w, v]) == [[w, v]]
  {
    PayloadOfOne(w);
    assert [] + [w] == [w] && [w] + [v] == [w, v];
    assert [w, v][1..] == [v] && [v][1..] == [];
    assert PackFrom(cap, [w], [v]) == PackFrom(cap, [w, v], []);
  }

  lemma {:induction false} DistinctInEveryPart(bs: seq<seq<Weight>>)
    requires DistinctNames(Flatten(bs))
    ensures forall i :: 0 <= i < |bs| ==> DistinctNames(bs[i])
  {
    if bs != [] {
      var f := Flatten(bs);
      assert f[..|bs[0]|] == bs[0];
      assert f[|bs[0]|..] == Flatten(bs[1..]);
      assert forall i, j :: 0 <= i < j < |bs[0]| ==> f[i] == bs[0][i] && f[j] == bs[0][j];
      forall i, j | 0 <= i < j < |Flatten(bs[1..])|
        ensures Flatten(bs[1..])[i].name != Flatten(bs[1..])[j].name
      {
        assert Flatten(bs[1..])[i] == f[|bs[0]| + i] && Flatten(bs[1..])[j] == f[|bs[0]| + j];
      }
      DistinctInEveryPart(bs[1..]);
      forall i | 0 <= i < |bs|
        ensures DistinctNames(bs[i])
      {
        if i > 0 {
          assert bs[i] == bs[1..][i - 1];
        }
      }
    }
  }
}
