/** What a whole transfer should look like, bucket by bucket: the reference both checkpoint
    engines are measured against. */
module TransferPlan {
  import opened BucketPacking

  /** Each rank registers two buffers and tells them apart by number. */
  type bit = n: nat | n < 2
  type Buffers = s: seq<seq<byte>> | |s| == 2 witness [[], []]

  /** Ranks, bucket size, and the weights rank 0 will send. */
  datatype Config = Config(n: nat, cap: nat, ws: seq<Weight>)

  ghost predicate Sendable(c: Config) {
    AllWellFormed(c.ws) && AllFit(c.ws, c.cap)
  }

  /** The dictionary sent ahead of a bucket. */
  datatype Metadata = Metadata(bucketMeta: seq<Meta>, isLast: bool)

  /** For every bucket its bytes, its metadata and what a receiver should yield for it;
      sent[k] is what should have been yielded after k buckets. */
  datatype Plan = Plan(
    cap: nat,
    payloads: seq<seq<byte>>,
    mds: seq<Metadata>,
    parts: seq<seq<Weight>>,
    sent: seq<seq<Weight>>
  )

  ghost predicate PartOk(payload: seq<byte>, md: Metadata, part: seq<Weight>) {
    && |part| == |md.bucketMeta|
    && forall i :: 0 <= i < |part| ==>
                     InRange(md.bucketMeta[i], payload) && View(payload, md.bucketMeta[i]) == part[i]
  }

  ghost predicate PlanOk(p: Plan) {
    && |p.payloads| == |p.mds| == |p.parts| == |p.sent| - 1
    && |p.mds| >= 1
    && (forall k :: 0 <= k < |p.mds| ==> |p.payloads[k]| <= p.cap)
    && (forall k :: 0 <= k < |p.mds| ==> (p.mds[k].isLast <==> k == |p.mds| - 1))
    && (forall k :: 0 <= k < |p.mds| ==> PartOk(p.payloads[k], p.mds[k], p.parts[k]))
    && p.sent[0] == []
    && (forall k :: 0 <= k < |p.mds| ==> p.sent[k + 1] == p.sent[k] + p.parts[k])
  }

  /** What should have been yielded in the end. */
  function LastSent(p: Plan): seq<Weight> {
    if p.sent == [] then [] else p.sent[|p.sent| - 1]
  }

  /** A buffer that starts with the payload yields the planned weights. */
  lemma ViewAsPlanned(payload: seq<byte>, md: Metadata, part: seq<Weight>, buf: seq<byte>, i: nat)
    requires PartOk(payload, md, part) && payload <= buf && i < |part|
    ensures InRange(md.bucketMeta[i], buf) && View(buf, md.bucketMeta[i]) == part[i]
  {
    var m := md.bucketMeta[i];
    assert InRange(m, payload);
    var hi := m.offset + ByteSize(m.shape, m.itemsize);
    assert buf[m.offset..hi] == payload[m.offset..hi];
  }

  function MetadataOf(bs: seq<seq<Weight>>, k: nat): Metadata
    requires k < |bs|
  {
    Metadata(Metas(bs[k]), k == |bs| - 1)
  }

  ghost predicate PlanMatches(p: Plan, bs: seq<seq<Weight>>) {
    && |p.mds| == |p.payloads| == |bs|
    && forall k :: 0 <= k < |bs| ==> p.mds[k] == MetadataOf(bs, k) && p.payloads[k] == Payload(bs[k])
  }

  ghost function PlanOfBuckets(cap: nat, bs: seq<seq<Weight>>): (p: Plan)
    requires AllBucketsWellFormed(bs) && AllBucketsFit(cap, bs) && bs != []
    ensures p.cap == cap && PlanMatches(p, bs)
    ensures |p.parts| == |bs| && |p.sent| == |bs| + 1
    ensures forall k :: 0 <= k < |bs| ==> p.parts[k] == Delivered(bs[k])
    ensures forall k :: 0 <= k <= |bs| ==> p.sent[k] == DeliveredStream(bs[..k])
  {
    Plan(cap,
         seq(|bs|, k requires 0 <= k < |bs| => Payload(bs[k])),
         seq(|bs|, k requires 0 <= k < |bs| => MetadataOf(bs, k)),
         seq(|bs|, k requires 0 <= k < |bs| => Delivered(bs[k])),
         seq(|bs| + 1, k requires 0 <= k <= |bs| => DeliveredStream(bs[..k])))
  }

  lemma DeliveredIsPart(b: seq<Weight>, last: bool)
    requires AllWellFormed(b)
    ensures PartOk(Payload(b), Metadata(Metas(b), last), Delivered(b))
  {
    MetasInRange(b);
  }

  lemma StreamSnoc(bs: seq<seq<Weight>>, k: nat)
    requires AllBucketsWellFormed(bs) && k < |bs|
    ensures DeliveredStream(bs[..k + 1]) == DeliveredStream(bs[..k]) + Delivered(bs[k])
  {
    assert bs[..k + 1][..k] == bs[..k];
  }

  lemma PlanPartsOk(cap: nat, bs: seq<seq<Weight>>, p: Plan)
    requires AllBucketsWellFormed(bs) && AllBucketsFit(cap, bs) && bs != [] && p == PlanOfBuckets(cap, bs)
    ensures forall k :: 0 <= k < |bs| ==> PartOk(p.payloads[k], p.mds[k], p.parts[k])
  {
    forall k | 0 <= k < |bs|
      ensures PartOk(p.payloads[k], p.mds[k], p.parts[k])
    {
      DeliveredIsPart(bs[k], k == |bs| - 1);
    }
  }

  lemma PlanStreamOk(cap: nat, bs: seq<seq<Weight>>, p: Plan)
    requires AllBucketsWellFormed(bs) && AllBucketsFit(cap, bs) && bs != [] && p == PlanOfBuckets(cap, bs)
    ensures forall k :: 0 <= k < |bs| ==> p.sent[k + 1] == p.sent[k] + p.parts[k]
  {
    forall k: nat | k < |bs|
      ensures p.sent[k + 1] == p.sent[k] + p.parts[k]
    {
      StreamSnoc(bs, k);
    }
  }

  lemma PlanOfBucketsOk(cap: nat, bs: seq<seq<Weight>>)
    requires AllBucketsWellFormed(bs) && AllBucketsFit(cap, bs) && bs != []
    ensures PlanOk(PlanOfBuckets(cap, bs))
    ensures PlanOfBuckets(cap, bs).sent[|bs|] == DeliveredStream(bs)
  {
    PlanPartsOk(cap, bs, PlanOfBuckets(cap, bs));
    PlanStreamOk(cap, bs, PlanOfBuckets(cap, bs));
    assert bs[..|bs|] == bs;
  }

  /** The plan that greedy packing gives rise to. */
  ghost function PlanOf(cap: nat, ws: seq<Weight>): (p: Plan)
    requires AllWellFormed(ws) && AllFit(ws, cap)
    ensures PlanOk(p) && p.cap == cap && PlanMatches(p, Buckets(cap, ws))
    ensures AllBucketsWellFormed(Buckets(cap, ws))
    ensures p.sent[|p.mds|] == DeliveredStream(Buckets(cap, ws))
  {
    BucketsWellFormed(cap, ws);
    PackingSound(cap, ws);
    PlanOfBucketsOk(cap, Buckets(cap, ws));
    PlanOfBuckets(cap, Buckets(cap, ws))
  }

  /** The sizes of the plan a configuration gives rise to. */
  lemma PlanSizes(c: Config)
    requires Sendable(c)
    ensures var p := ThePlan(c);
            && p.cap == c.cap && |p.mds| == |Buckets(c.cap, c.ws)|
            && AllBucketsWellFormed(Buckets(c.cap, c.ws))
            && LastSent(p) == DeliveredStream(Buckets(c.cap, c.ws))
  {
  }

  ghost predicate Planned(c: Config, p: Plan) {
    Sendable(c) && PlanOk(p) && p.cap == c.cap && PlanMatches(p, Buckets(c.cap, c.ws))
  }

  ghost function ThePlan(c: Config): (p: Plan)
    requires Sendable(c)
    ensures Planned(c, p)
    ensures AllBucketsWellFormed(Buckets(c.cap, c.ws))
    ensures p.sent[|p.mds|] == DeliveredStream(Buckets(c.cap, c.ws))
  {
    PlanOf(c.cap, c.ws)
  }

  /** In any plan, each prefix of buckets yields a prefix of the whole stream. */
  lemma {:induction false} SentIsPrefix(p: Plan, k: nat, i: nat)
    requires PlanOk(p) && k < |p.mds| && i <= |p.parts[k]|
    ensures p.sent[k] + p.parts[k][..i] <= p.sent[k + 1]
    ensures p.sent[k] <= p.sent[k + 1] <= p.sent[|p.mds|]
    decreases |p.mds| - k
  {
    assert p.sent[k + 1] == p.sent[k] + p.parts[k];
    if k + 1 < |p.mds| {
      SentIsPrefix(p, k + 1, 0);
    }
  }

  // --------------------------------------------------------------------------
  // Filling a bucket: the sending loop both engines share
  // --------------------------------------------------------------------------

  /** How far the loop over the weights has come. The last field, the weights in the bucket
      being filled, is history: nothing tests it. */
  datatype Fill = Fill(next: nat, offset: nat, bucketMeta: seq<Meta>, filling: seq<Weight>)

  function Restart(f: Fill): Fill {
    f.(offset := 0, bucketMeta := [], filling := [])
  }

  function Take(f: Fill, w: Weight): Fill {
    Fill(f.next + 1, f.offset + |w.bytes|, Put(f.bucketMeta, MetaOf(w, f.offset)), f.filling + [w])
  }

  function Overwrite(buf: seq<byte>, offset: nat, bytes: seq<byte>): (r: seq<byte>)
    requires offset + |bytes| <= |buf|
    ensures |r| == |buf|
  {
    buf[..offset] + bytes + buf[offset + |bytes|..]
  }

  /** Bucket number k is being filled, in buf. */
  ghost predicate FillOk(cap: nat, ws: seq<Weight>, k: nat, f: Fill, buf: seq<byte>) {
    && k < |Buckets(cap, ws)|
    && f.next <= |ws|
    && Buckets(cap, ws)[k..] == PackFrom(cap, f.filling, ws[f.next..])
    && f.offset == |Payload(f.filling)| <= cap
    && f.bucketMeta == Metas(f.filling)
    && Payload(f.filling) <= buf
  }

  lemma FillStarts(cap: nat, ws: seq<Weight>, buf: seq<byte>)
    ensures FillOk(cap, ws, 0, Fill(0, 0, [], []), buf)
  {
    assert ws[0..] == ws;
    assert Buckets(cap, ws)[0..] == Buckets(cap, ws);
  }

  lemma OverwriteExtends(buf: seq<byte>, head: seq<byte>, bytes: seq<byte>)
    requires head <= buf && |head| + |bytes| <= |buf|
    ensures head + bytes <= Overwrite(buf, |head|, bytes)
  {
  }

  lemma FillTakes(cap: nat, ws: seq<Weight>, k: nat, f: Fill, buf: seq<byte>)
    requires FillOk(cap, ws, k, f, buf) && f.next < |ws| && |buf| == cap
    requires f.offset + |ws[f.next].bytes| <= cap
    ensures FillOk(cap, ws, k, Take(f, ws[f.next]), Overwrite(buf, f.offset, ws[f.next].bytes))
  {
    var w, rest := ws[f.next], ws[f.next..];
    PayloadSnoc(f.filling, w);
    MetasSnoc(f.filling, w);
    assert rest[0] == w && rest[1..] == ws[f.next + 1..];
    OverwriteExtends(buf, Payload(f.filling), w.bytes);
  }

  /** A bucket that cannot take the next weight is finished. */
  lemma FlushSplits(cap: nat, cur: seq<Weight>, ws: seq<Weight>, bs: seq<seq<Weight>>, k: nat)
    requires k < |bs| && bs[k..] == PackFrom(cap, cur, ws)
    requires ws != [] && |ws[0].bytes| <= cap && |Payload(cur)| + |ws[0].bytes| > cap
    ensures k + 1 < |bs| && bs[k] == cur && bs[k + 1..] == PackFrom(cap, [], ws)
  {
    var tail := PackFrom(cap, [ws[0]], ws[1..]);
    assert bs[k..] == [cur] + tail;
    assert bs[k] == bs[k..][0];
    assert bs[k + 1..] == bs[k..][1..] == tail;
    assert [] + [ws[0]] == [ws[0]];
  }

  lemma FillFlushes(cap: nat, ws: seq<Weight>, p: Plan, k: nat, f: Fill, buf: seq<byte>, other: seq<byte>)
    requires AllFit(ws, cap) && PlanMatches(p, Buckets(cap, ws))
    requires FillOk(cap, ws, k, f, buf) && f.next < |ws| && f.offset + |ws[f.next].bytes| > cap
    ensures k + 1 < |p.mds| == |p.payloads|
    ensures p.mds[k] == Metadata(f.bucketMeta, false) && p.payloads[k] <= buf
    ensures FillOk(cap, ws, k + 1, Restart(f), other)
  {
    FlushSplits(cap, f.filling, ws[f.next..], Buckets(cap, ws), k);
  }

  lemma FillEnds(cap: nat, ws: seq<Weight>, p: Plan, k: nat, f: Fill, buf: seq<byte>)
    requires PlanMatches(p, Buckets(cap, ws)) && FillOk(cap, ws, k, f, buf) && f.next == |ws|
    ensures k == |p.mds| - 1 == |p.payloads| - 1
    ensures p.mds[k] == Metadata(f.bucketMeta, true) && p.payloads[k] <= buf
  {
    var bs := Buckets(cap, ws);
    assert bs[k..] == [f.filling];
    assert bs[k] == bs[k..][0];
  }

  // --------------------------------------------------------------------------
  // Yielding a bucket: the receiving loop both engines share
  // --------------------------------------------------------------------------

  /** index weights of bucket k have been yielded, and all of the buckets before it. */
  ghost predicate YieldingOk(p: Plan, k: int, index: nat, out: seq<Weight>) {
    && 0 <= k < |p.parts| == |p.sent| - 1
    && index <= |p.parts[k]|
    && out == p.sent[k] + p.parts[k][..index]
  }

  ghost predicate YieldedOk(p: Plan, k: int, out: seq<Weight>) {
    0 <= k < |p.sent| && out == p.sent[k]
  }

  ghost predicate Holds(p: Plan, buf: seq<byte>, k: int) {
    0 <= k < |p.payloads| && p.payloads[k] <= buf
  }

  lemma YieldStarts(p: Plan, k: int, out: seq<Weight>)
    requires PlanOk(p) && YieldedOk(p, k, out) && k < |p.parts|
    ensures YieldingOk(p, k, 0, out)
  {
    assert p.parts[k][..0] == [];
  }

  lemma YieldAdvances(p: Plan, k: int, index: nat, out: seq<Weight>, buf: seq<byte>)
    requires PlanOk(p) && YieldingOk(p, k, index, out) && Holds(p, buf, k) && index < |p.mds[k].bucketMeta|
    ensures InRange(p.mds[k].bucketMeta[index], buf)
    ensures YieldingOk(p, k, index + 1, out + [View(buf, p.mds[k].bucketMeta[index])])
  {
    var part := p.parts[k];
    assert PartOk(p.payloads[k], p.mds[k], part);
    ViewAsPlanned(p.payloads[k], p.mds[k], part, buf, index);
    assert part[..index + 1] == part[..index] + [part[index]];
  }

  lemma YieldEnds(p: Plan, k: int, index: nat, out: seq<Weight>)
    requires PlanOk(p) && YieldingOk(p, k, index, out) && index >= |p.mds[k].bucketMeta|
    ensures YieldedOk(p, k + 1, out)
  {
    assert PartOk(p.payloads[k], p.mds[k], p.parts[k]);
    assert p.parts[k][..index] == p.parts[k];
    assert p.sent[k + 1] == p.sent[k] + p.parts[k];
  }

  lemma YieldingIsPrefix(p: Plan, k: int, index: nat, out: seq<Weight>)
    requires PlanOk(p) && YieldingOk(p, k, index, out)
    ensures out <= p.sent[|p.mds|]
  {
    SentIsPrefix(p, k, index);
  }

  lemma YieldedIsPrefix(p: Plan, k: int, out: seq<Weight>)
    requires PlanOk(p) && YieldedOk(p, k, out)
    ensures out <= p.sent[|p.mds|]
  {
    if k < |p.mds| {
      SentIsPrefix(p, k, 0);
    }
  }

  // --------------------------------------------------------------------------
  // Copying a buffer byte by byte
  // --------------------------------------------------------------------------

  /** Every byte copied so far is the right one. */
  ghost predicate ArrivedOk(payload: seq<byte>, buf: seq<byte>, copied: set<nat>) {
    && (forall i :: i in copied ==> i < |buf|)
    && (forall i :: i in copied && i < |payload| ==> buf[i] == payload[i])
  }

  lemma ByteArrives(payload: seq<byte>, buf: seq<byte>, copied: set<nat>, i: nat, x: byte)
    requires ArrivedOk(payload, buf, copied) && i < |buf|
    requires i < |payload| ==> x == payload[i]
    ensures ArrivedOk(payload, buf[i := x], copied + {i})
  {
  }

  lemma AllArrived(payload: seq<byte>, buf: seq<byte>, copied: set<nat>, cap: nat)
    requires ArrivedOk(payload, buf, copied) && |payload| <= cap == |buf|
    requires forall i :: 0 <= i < cap ==> i in copied
    ensures payload <= buf
  {
    assert forall i :: 0 <= i < |payload| ==> i in copied && buf[i] == payload[i];
  }

  lemma {:induction false} BoundedSetSize(s: set<nat>, n: nat)
    requires forall i :: i in s ==> i < n
    ensures |s| <= n
  {
    if n == 0 {
      assert s == {};
    } else {
      BoundedSetSize(s - {n - 1}, n - 1);
      assert s <= (s - {n - 1}) + {n - 1};
      assert |s| <= |(s - {n - 1}) + {n - 1}|;
    }
  }
}
