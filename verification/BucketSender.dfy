/** send_weights as rank 0 runs it: one loop over the weights, writing into two byte arrays
    that take turns. The interleaving with other ranks is the subject of NixlChain and
    NcclBroadcast; this class ties the in-place loop to the packing function. */
module BucketSender {
  import opened BucketPacking
  import opened Options
  import opened TransferPlan

  /** A bucket handed to the successors: from which array, what the array held, and its metadata. */
  datatype Offer = Offer(localDescs: bit, bytes: seq<byte>, metadata: Metadata)

  /** One more weight at the end of a packing. */
  function AddWeight(cap: nat, bs: seq<seq<Weight>>, w: Weight): seq<seq<Weight>>
    requires bs != []
  {
    var last := bs[|bs| - 1];
    if |Payload(last)| + |w.bytes| > cap then bs + [[w]] else bs[|bs| - 1 := last + [w]]
  }

  lemma {:induction false} PackSnoc(cap: nat, cur: seq<Weight>, ws: seq<Weight>, w: Weight)
    ensures PackFrom(cap, cur, ws + [w]) == AddWeight(cap, PackFrom(cap, cur, ws), w)
    decreases |ws|
  {
    if ws == [] {
      assert ws + [w] == [w];
      assert [w][1..] == [];
    } else {
      assert (ws + [w])[1..] == ws[1..] + [w];
      if |Payload(cur)| + |ws[0].bytes| > cap {
        PackSnoc(cap, [ws[0]], ws[1..], w);
      } else {
        PackSnoc(cap, cur + [ws[0]], ws[1..], w);
      }
    }
  }

  /** The buckets offered while the stream is at ws, with the last bucket still open. */
  lemma BucketsSnoc(cap: nat, ws: seq<Weight>, i: nat)
    requires i < |ws|
    ensures Buckets(cap, ws[..i + 1]) == AddWeight(cap, Buckets(cap, ws[..i]), ws[i])
  {
    assert ws[..i + 1] == ws[..i] + [ws[i]];
    PackSnoc(cap, [], ws[..i], ws[i]);
  }

  /** Offer number k is bucket number k, intact, from alternating arrays. */
  ghost predicate OfferOk(o: Offer, bs: seq<seq<Weight>>, k: nat, isLast: bool)
    requires k < |bs|
  {
    && o.localDescs == k % 2
    && o.metadata == Metadata(Metas(bs[k]), isLast)
    && Payload(bs[k]) <= o.bytes
  }

  ghost predicate OffersOk(offers: seq<Offer>, bs: seq<seq<Weight>>) {
    |offers| == |bs| && forall k :: 0 <= k < |bs| ==> OfferOk(offers[k], bs, k, false)
  }

  lemma OffersSnoc(offers: seq<Offer>, bs: seq<seq<Weight>>, o: Offer, b: seq<Weight>)
    requires OffersOk(offers, bs)
    requires o.localDescs == |bs| % 2 && o.metadata == Metadata(Metas(b), false) && Payload(b) <= o.bytes
    ensures OffersOk(offers + [o], bs + [b])
  {
    forall k | 0 <= k < |bs| + 1
      ensures OfferOk((offers + [o])[k], bs + [b], k, false)
    {
      assert k < |bs| ==> OfferOk(offers[k], bs, k, false);
    }
  }

  /** The running state of the loop: two arrays, which of them is being filled, and how far. */
  class Sender {
    const bucketSize: nat
    var send: array<byte>
    var recv: array<byte>
    var sending: bit
    var bucketMeta: seq<Meta>
    var offset: nat
    var offers: seq<Offer>
    ghost var done: seq<seq<Weight>> // buckets offered
    ghost var cur: seq<Weight> // bucket being filled

    ghost predicate Valid()
      reads this, send
    {
      && send != recv && send.Length == bucketSize && recv.Length == bucketSize
      && sending == |done| % 2
      && OffersOk(offers, done)
      && offset == |Payload(cur)| <= bucketSize
      && bucketMeta == Metas(cur)
      && send[..offset] == Payload(cur)
    }

    constructor (bucketSize: nat)
      ensures Valid() && this.bucketSize == bucketSize && fresh(send) && fresh(recv)
      ensures done == [] && cur == [] && offers == []
    {
      this.bucketSize := bucketSize;
      send := new byte[bucketSize];
      recv := new byte[bucketSize];
      sending, bucketMeta, offset, offers, done, cur := 0, [], 0, [], [], [];
    }

    /** Offers the bucket being filled and swaps the arrays. */
    method Flush()
      requires Valid()
      modifies this
      ensures Valid() && send == old(recv) && recv == old(send)
      ensures done == old(done) + [old(cur)] && cur == []
    {
      var o := Offer(sending, send[..], Metadata(bucketMeta, false));
      assert send[..offset] == send[..][..offset];
      OffersSnoc(offers, done, o, cur);
      offers, done, cur := offers + [o], done + [cur], [];
      send, recv, sending := recv, send, 1 - sending;
      bucketMeta, offset := [], 0;
    }

    /** Copies a weight's bytes behind those already in the array. */
    method CopyBytes(w: Weight)
      requires Valid() && offset + |w.bytes| <= bucketSize
      modifies send
      ensures send[..offset + |w.bytes|] == Payload(cur) + w.bytes
    {
      forall j | 0 <= j < |w.bytes| {
        send[offset + j] := w.bytes[j];
      }
      assert send[..offset] == Payload(cur);
      assert send[offset..offset + |w.bytes|] == w.bytes;
      assert send[..offset + |w.bytes|] == send[..offset] + send[offset..offset + |w.bytes|];
    }

    method Take(w: Weight)
      requires Valid() && offset + |w.bytes| <= bucketSize
      modifies this`bucketMeta, this`offset, this`cur, send
      ensures Valid() && done == old(done) && cur == old(cur) + [w]
    {
      PayloadSnoc(cur, w);
      MetasSnoc(cur, w);
      CopyBytes(w);
      bucketMeta := Put(bucketMeta, MetaOf(w, offset));
      offset := offset + |w.bytes|;
      cur := cur + [w];
    }

    /** One turn of the loop; false when the weight is larger than a bucket. */
    method Add(w: Weight) returns (ok: bool)
      requires Valid()
      modifies this, send, recv
      ensures Valid() && {send, recv} == old({send, recv})
      ensures ok <==> |w.bytes| <= bucketSize
      ensures ok ==> done + [cur] == AddWeight(bucketSize, old(done + [cur]), w)
      ensures !ok ==> done == old(done + [cur])
    {
      ghost var before, open := done, cur;
      if offset + |w.bytes| > bucketSize {
        Flush();
        assert [] + [w] == [w];
      }
      if offset + |w.bytes| > bucketSize {
        return false;
      }
      Take(w);
      ok := true;
      assert (before + [open])[|before| := open + [w]] == before + [open + [w]];
    }

    /** The turn for weight i. */
    method AddNext(ws: seq<Weight>, i: nat) returns (ok: bool)
      requires Valid() && i < |ws| && AllFit(ws[..i], bucketSize)
      requires Buckets(bucketSize, ws[..i]) == done + [cur]
      modifies this, send, recv
      ensures Valid() && {send, recv} == old({send, recv})
      ensures ok <==> |ws[i].bytes| <= bucketSize
      ensures ok ==> AllFit(ws[..i + 1], bucketSize) && Buckets(bucketSize, ws[..i + 1]) == done + [cur]
      ensures !ok ==> OffersOk(offers, Buckets(bucketSize, ws[..i]))
    {
      BucketsSnoc(bucketSize, ws, i);
      assert ws[..i + 1] == ws[..i] + [ws[i]];
      ok := Add(ws[i]);
    }

    /** Offers the last bucket. */
    method OfferLast()
      requires Valid()
      modifies this`offers
      ensures |offers| == |done| + 1
      ensures forall k :: 0 <= k < |offers| ==> OfferOk(offers[k], done + [cur], k, k == |done|)
    {
      assert send[..offset] == send[..][..offset];
      forall k | 0 <= k < |done|
        ensures OfferOk(offers[k], done + [cur], k, false)
      {
        assert OfferOk(offers[k], done, k, false);
      }
      offers := offers + [Offer(sending, send[..], Metadata(bucketMeta, true))];
    }

    /** Sends every weight, or stops at the first that is larger than a bucket and returns its
        position; the buckets completed before it have been offered by then. */
    method SendWeights(ws: seq<Weight>) returns (failedAt: Option<nat>)
      requires Valid() && done == [] && cur == []
      modifies this, send, recv
      ensures failedAt.None? <==> AllFit(ws, bucketSize)
      ensures failedAt.None? ==>
                var bs := Buckets(bucketSize, ws);
                |offers| == |bs| && forall k :: 0 <= k < |bs| ==> OfferOk(offers[k], bs, k, k == |bs| - 1)
      ensures failedAt.Some? ==>
                && failedAt.value < |ws|
                && |ws[failedAt.value].bytes| > bucketSize
                && AllFit(ws[..failedAt.value], bucketSize)
                && OffersOk(offers, Buckets(bucketSize, ws[..failedAt.value]))
    {
      for i := 0 to |ws|
        invariant Valid() && {send, recv} == old({send, recv})
        invariant AllFit(ws[..i], bucketSize)
        invariant Buckets(bucketSize, ws[..i]) == done + [cur]
      {
        var ok := AddNext(ws, i);
        if !ok {
          return Some(i);
        }
      }
      assert ws[..|ws|] == ws;
      OfferLast();
      failedAt := None;
    }
  }
}
