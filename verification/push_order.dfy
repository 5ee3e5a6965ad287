/**
 The order of a push (push/engine.go): each bucket keeps the order of the input, and
 what a channel ends up knowing about a point is what the input says last about it.
 */
module PushOrder {

  import opened Change
  import opened PushEngine
  import opened PushCalls

  /** What stands earlier in the input stands earlier in its bucket; nothing is moved. */
  lemma {:induction false} SelectKeepsOrder(x: seq<Record>, y: seq<Record>, r: Record, b: Bucket)
    ensures Select(x + y, b) == Select(x, b) + Select(y, b)
    ensures Select([r], b) == if BucketOf(r) == b then [r] else []
    decreases |y|
  {
    assert [r][..0] == [];
    if y == [] {
      assert x + y == x;
    } else {
      var front := y[..|y| - 1];
      SelectKeepsOrder(x, front, r, b);
      assert (x + y)[..|x + y| - 1] == x + front && (x + y)[|x + y| - 1] == y[|y| - 1];
    }
  }

  /** Place n is the last that speaks about point k. */
  ghost predicate IsLast(rs: seq<Record>, n: nat, k: Key) {
    && n < |rs| && KeyOf(rs[n]) == k
    && forall m :: n < m < |rs| ==> KeyOf(rs[m]) != k
  }

  lemma {:induction false} ForeignRecords(stream: seq<Sent>, rs: seq<Record>, now: int, k: Key)
    requires forall m :: 0 <= m < |rs| ==> KeyOf(rs[m]) != k
    ensures var v, w := View(stream), View(stream + Stamp(rs, now)); (k in w <==> k in v) && (k in v ==> w[k] == v[k])
  {
    if rs == [] {
      assert stream + [] == stream;
    } else {
      var front, r := rs[..|rs| - 1], rs[|rs| - 1];
      ForeignRecords(stream, front, now, k);
      assert stream + Stamp(rs, now) == (stream + Stamp(front, now)) + [Sent(r, now)];
      ViewSnoc(stream + Stamp(front, now), Sent(r, now));
    }
  }

  lemma LastIsKnown(stream: seq<Sent>, rs: seq<Record>, now: int, n: nat, k: Key)
    requires IsLast(rs, n, k)
    ensures var w := View(stream + Stamp(rs, now)); k in w && w[k] == Entry(rs[n].facts, now)
  {
    var head, tail := rs[..n + 1], rs[n + 1..];
    assert rs == head + tail && head == rs[..n] + [rs[n]];
    StampConcat(head, tail, now);
    StampSnoc(rs[..n], rs[n], now);
    var upTo := stream + Stamp(rs[..n], now);
    ViewSnoc(upTo, Sent(rs[n], now));
    assert stream + Stamp(head, now) == upTo + [Sent(rs[n], now)];
    ForeignRecords(stream + Stamp(head, now), tail, now, k);
    assert stream + Stamp(rs, now) == (stream + Stamp(head, now)) + Stamp(tail, now);
  }

  /** The last word about a point in the input is the last word about it in its bucket. */
  lemma {:induction false} LastInBucket(rs: seq<Record>, n: nat, k: Key) returns (m: nat)
    requires IsLast(rs, n, k)
    ensures var own := Select(rs, BucketOf(rs[n])); IsLast(own, m, k) && own[m] == rs[n]
  {
    var front, b := rs[..|rs| - 1], BucketOf(rs[n]);
    if n == |rs| - 1 {
      m := |Select(front, b)|;
    } else {
      m := LastInBucket(front, n, k);
    }
  }

  lemma OtherBucketsAreSilent(rs: seq<Record>, own: Bucket, k: Key)
    requires own != Bucket(k.deviceID, k.groupID)
    ensures forall m :: 0 <= m < |Select(rs, own)| ==> KeyOf(Select(rs, own)[m]) != k
  {
    var out := Select(rs, own);
    forall m | 0 <= m < |out|
      ensures KeyOf(out[m]) != k
    {
      assert out[m] in out && InBucket(out[m], own.device, own.group);
    }
  }

  /** What one bucket of the push does to what a channel has been offered about point k. */
  lemma BucketOffers(e: Engine, own: Bucket, rs: seq<Record>, now: int, id: string, n: nat, k: Key)
    requires IsLast(rs, n, k) && id in e.channels && e.channels[id].accepts(BucketOf(rs[n]))
    ensures var t := PushBucket(e, own, Select(rs, own), now);
            && id in t.channels
            && var v, w := View(e.channels[id].offered), View(t.channels[id].offered);
               && (own == BucketOf(rs[n]) ==> k in w && w[k] == Entry(rs[n].facts, now))
               && (own != BucketOf(rs[n]) && k in v ==> k in w && w[k] == v[k])
  {
    if own == BucketOf(rs[n]) {
      var m := LastInBucket(rs, n, k);
      LastIsKnown(e.channels[id].offered, Select(rs, own), now, m, k);
    } else {
      OtherBucketsAreSilent(rs, own, k);
      ForeignRecords(e.channels[id].offered, Select(rs, own), now, k);
    }
  }

  /** The channel is offered the bucket of place n, and no later bucket speaks about its point. */
  lemma {:induction false} OfferedLast(e: Engine, buckets: seq<Bucket>, rs: seq<Record>, now: int, id: string, n: nat, k: Key)
    requires Distinct(buckets) && IsLast(rs, n, k) && BucketOf(rs[n]) in buckets
    requires id in e.channels && e.channels[id].accepts(BucketOf(rs[n]))
    ensures var t := PushBuckets(e, buckets, rs, now);
            && id in t.channels
            && k in View(t.channels[id].offered) && View(t.channels[id].offered)[k] == Entry(rs[n].facts, now)
    decreases |buckets|
  {
    var last := |buckets| - 1;
    ChannelsStay(e, buckets[..last], rs, now, id);
    BucketOffers(PushBuckets(e, buckets[..last], rs, now), buckets[last], rs, now, id, n, k);
    if buckets[last] != BucketOf(rs[n]) {
      assert BucketOf(rs[n]) in buckets[..last];
      OfferedLast(e, buckets[..last], rs, now, id, n, k);
    }
  }

  lemma {:induction false} ChannelsStay(e: Engine, buckets: seq<Bucket>, rs: seq<Record>, now: int, id: string)
    requires id in e.channels
    ensures var t := PushBuckets(e, buckets, rs, now);
            id in t.channels && t.channels[id].accepts == e.channels[id].accepts
    decreases |buckets|
  {
    if buckets != [] {
      ChannelsStay(e, buckets[..|buckets| - 1], rs, now, id);
    }
  }

  /**
   After any run and a push whose buckets cover the input, every active channel knows
   about every point it accepts what the input said last about it, suppressed or not.
   */
  lemma LastWordArrives(actions: seq<Action>, buckets: seq<Bucket>, rs: seq<Record>, now: int, id: string, n: nat)
    requires Distinct(buckets) && Covers(buckets, rs) && n < |rs| && IsLast(rs, n, KeyOf(rs[n]))
    requires id in Run(actions).channels && Run(actions).channels[id].accepts(BucketOf(rs[n]))
    ensures var t := PushBuckets(Run(actions), buckets, rs, now);
            && id in t.channels
            && var got, k := View(Received(t.channels[id].sent)), KeyOf(rs[n]);
               k in got && got[k].facts == rs[n].facts
  {
    var m := LastInBucket(rs, n, KeyOf(rs[n]));
    var e := Run(actions);
    SuppressionIsInvisible(actions);
    PushKeeps(e, buckets, rs, now);
    OfferedLast(e, buckets, rs, now, id, n, KeyOf(rs[n]));
    var t := PushBuckets(e, buckets, rs, now);
    assert ChannelOk(t, t.channels[id]);
  }

  /** A bucket that no channel takes leaves everything as it was: nothing is noted as passed on. */
  lemma UnwantedIsNotNoted(e: Engine, b: Bucket, rs: seq<Record>, now: int)
    requires forall id :: id in e.channels ==> !e.channels[id].accepts(b)
    ensures PushBucket(e, b, rs, now) == e
  {
  }
}
