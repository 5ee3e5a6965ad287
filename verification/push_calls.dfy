/**
 One PushRecords call in full (push/engine.go): bucketing, the fixed dispatch
 order, slicing, and what each channel gets of each bucket.
 */
module PushCalls {

  import opened Change
  import opened Collections
  import opened PushEngine

  // ----- What one push adds to a channel -----

  /** The batches of one bucket among those a channel got. */
  function OfBucket(sent: seq<Batch>, b: Bucket): seq<Batch> {
    if sent == [] then []
    else OfBucket(sent[..|sent| - 1], b) + if sent[|sent| - 1].bucket == b then [sent[|sent| - 1]] else []
  }

  lemma {:induction false} OfBucketConcat(x: seq<Batch>, y: seq<Batch>, b: Bucket)
    ensures OfBucket(x + y, b) == OfBucket(x, b) + OfBucket(y, b)
  {
    if y == [] {
      assert x + y == x;
    } else {
      OfBucketConcat(x, y[..|y| - 1], b);
      assert (x + y)[..|x + y| - 1] == x + y[..|y| - 1];
    }
  }

  ghost predicate AllOf(batches: seq<Batch>, b: Bucket) {
    forall x :: x in batches ==> x.bucket == b
  }

  lemma {:induction false} SplitIsOfBucket(b: Bucket, at: int, rs: seq<Record>)
    ensures AllOf(Split(b, at, rs), b)
    decreases |rs|
  {
    if |rs| > MAX_RECORDS_PER_BATCH {
      SplitIsOfBucket(b, at, rs[MAX_RECORDS_PER_BATCH..]);
    }
  }

  lemma {:induction false} OfBucketAll(batches: seq<Batch>, own: Bucket, b: Bucket)
    requires AllOf(batches, own)
    ensures OfBucket(batches, b) == if own == b then batches else []
  {
    if batches != [] {
      assert batches[|batches| - 1] in batches;
      OfBucketAll(batches[..|batches| - 1], own, b);
    }
  }

  ghost predicate AgreeOn(s: Tracker, t: Tracker, b: Bucket) {
    forall k: Key :: k.deviceID == b.device && k.groupID == b.group ==>
      (k in s <==> k in t) && (k in s ==> s[k] == t[k])
  }

  /** What passes depends on the tracker only at the bucket's own points. */
  lemma {:induction false} PassedAgrees(s: Tracker, t: Tracker, rs: seq<Record>, now: int, keepalive: int, b: Bucket)
    requires AgreeOn(s, t, b) && AllIn(rs, b.device, b.group)
    ensures Passed(s, rs, now, keepalive) == Passed(t, rs, now, keepalive)
    ensures AgreeOn(After(s, rs, now, keepalive), After(t, rs, now, keepalive), b)
  {
    if rs != [] {
      AllButLast(rs, b.device, b.group);
      PassedAgrees(s, t, rs[..|rs| - 1], now, keepalive, b);
    }
  }

  /** The batches one bucket of a push amounts to. */
  function Sliced(e: Engine, rs: seq<Record>, b: Bucket, now: int): seq<Batch> {
    var kept := Kept(e, Select(rs, b), now);
    if kept == [] then [] else Split(b, now, kept)
  }

  ghost predicate Distinct(buckets: seq<Bucket>) {
    forall i, j :: 0 <= i < j < |buckets| ==> buckets[i] != buckets[j]
  }

  /** From e to t, channel id got exactly `more` of bucket b. */
  ghost predicate Adds(e: Engine, t: Engine, id: string, b: Bucket, more: seq<Batch>)
    requires id in e.channels
  {
    && id in t.channels && t.channels[id].accepts == e.channels[id].accepts
    && OfBucket(t.channels[id].sent, b) == OfBucket(e.channels[id].sent, b) + more
  }

  /** The tracker is as it was for bucket b, and so are the settings. */
  ghost predicate Undisturbed(e: Engine, t: Engine, b: Bucket) {
    AgreeOn(e.last, t.last, b) && t.changeOnly == e.changeOnly && t.keepalive == e.keepalive
  }

  lemma GivenAdds(c: Channel, own: Bucket, rs: seq<Record>, now: int, kept: seq<Record>, b: Bucket)
    requires c.accepts(b)
    ensures OfBucket(Given(c, own, now, rs, kept).sent, b)
            == OfBucket(c.sent, b) + (if own == b && kept != [] then Split(b, now, kept) else [])
  {
    SplitIsOfBucket(own, now, kept);
    OfBucketAll(Split(own, now, kept), own, b);
    OfBucketConcat(c.sent, Split(own, now, kept), b);
    assert c.sent + [] == c.sent;
  }

  lemma OneBucketAdds(e: Engine, own: Bucket, rs: seq<Record>, now: int, id: string, b: Bucket)
    requires id in e.channels && e.channels[id].accepts(b)
    ensures Adds(e, PushBucket(e, own, Select(rs, own), now), id, b, if own == b then Sliced(e, rs, b, now) else [])
  {
    var mine := Select(rs, own);
    GivenAdds(e.channels[id], own, mine, now, Kept(e, mine, now), b);
    assert own == b ==> Wanted(e, b);
  }

  lemma OtherBucketIsUndisturbed(e: Engine, own: Bucket, rs: seq<Record>, now: int, b: Bucket)
    requires own != b
    ensures Undisturbed(e, PushBucket(e, own, Select(rs, own), now), b)
  {
    forall k: Key | k.deviceID == b.device && k.groupID == b.group
      ensures var t := After(e.last, Select(rs, own), now, e.keepalive);
              (k in e.last <==> k in t) && (k in e.last ==> e.last[k] == t[k])
    {
      FilterIsLocal(e.last, Select(rs, own), now, e.keepalive, own.device, own.group, k);
    }
  }

  lemma {:induction false} OthersLeaveUndisturbed(e: Engine, buckets: seq<Bucket>, rs: seq<Record>, now: int, b: Bucket)
    requires b !in buckets
    ensures Undisturbed(e, PushBuckets(e, buckets, rs, now), b)
    decreases |buckets|
  {
    if buckets != [] {
      var n := |buckets| - 1;
      OthersLeaveUndisturbed(e, buckets[..n], rs, now, b);
      OtherBucketIsUndisturbed(PushBuckets(e, buckets[..n], rs, now), buckets[n], rs, now, b);
    }
  }

  lemma SlicedAgrees(e: Engine, t: Engine, rs: seq<Record>, b: Bucket, now: int)
    requires Undisturbed(e, t, b)
    ensures Sliced(e, rs, b, now) == Sliced(t, rs, b, now)
  {
    PassedAgrees(e.last, t.last, Select(rs, b), now, e.keepalive, b);
  }

  lemma LastBucketAdds(e: Engine, front: seq<Bucket>, own: Bucket, rs: seq<Record>, now: int, id: string, b: Bucket)
    requires own !in front && id in e.channels && e.channels[id].accepts(b)
    requires Adds(e, PushBuckets(e, front, rs, now), id, b, if b in front then Sliced(e, rs, b, now) else [])
    ensures Adds(e, PushBucket(PushBuckets(e, front, rs, now), own, Select(rs, own), now), id, b,
                 if b in front || b == own then Sliced(e, rs, b, now) else [])
  {
    var mid := PushBuckets(e, front, rs, now);
    OneBucketAdds(mid, own, rs, now, id, b);
    if own == b {
      OthersLeaveUndisturbed(e, front, rs, now, b);
      SlicedAgrees(e, mid, rs, b, now);
    }
  }

  /**
   One push: for every channel and every bucket it accepts, the new batches of that
   bucket are exactly the slices of its records that pass, in their order, however
   the buckets are dispatched; other buckets add nothing.
   */
  lemma {:induction false} PushAdds(e: Engine, buckets: seq<Bucket>, rs: seq<Record>, now: int, id: string, b: Bucket)
    requires Distinct(buckets) && id in e.channels && e.channels[id].accepts(b)
    ensures Adds(e, PushBuckets(e, buckets, rs, now), id, b, if b in buckets then Sliced(e, rs, b, now) else [])
    decreases |buckets|
  {
    if buckets == [] {
      assert OfBucket(e.channels[id].sent, b) + [] == OfBucket(e.channels[id].sent, b);
    } else {
      var n := |buckets| - 1;
      PushAdds(e, buckets[..n], rs, now, id, b);
      LastBucketAdds(e, buckets[..n], buckets[n], rs, now, id, b);
      assert b in buckets <==> b in buckets[..n] || b == buckets[n];
    }
  }

  /** As records: what a channel gets of an accepted bucket is what passes, and no batch is empty or mixed. */
  lemma PushedRecords(e: Engine, buckets: seq<Bucket>, rs: seq<Record>, now: int, id: string, b: Bucket)
    returns (more: seq<Batch>)
    requires Distinct(buckets) && id in e.channels && e.channels[id].accepts(b) && b in buckets
    ensures Adds(e, PushBuckets(e, buckets, rs, now), id, b, more)
    ensures Received(more) == Stamp(Kept(e, Select(rs, b), now), now) && BatchesOk(more)
  {
    PushAdds(e, buckets, rs, now, id, b);
    more := Sliced(e, rs, b, now);
    if Kept(e, Select(rs, b), now) != [] {
      SplitKeepsAll(b, now, Kept(e, Select(rs, b), now));
    }
  }

  // ----- The call itself -----

  /** Byte-wise order of strings. */
  predicate StringLess(a: string, b: string) {
    b != [] && (a == [] || a[0] < b[0] || (a[0] == b[0] && StringLess(a[1..], b[1..])))
  }

  predicate Before(a: Bucket, b: Bucket) {
    if a.device != b.device then StringLess(a.device, b.device) else StringLess(a.group, b.group)
  }

  lemma {:induction false} StringLessTotal(a: string, b: string)
    ensures StringLess(a, b) || StringLess(b, a) || a == b
  {
    if a != [] && b != [] && a[0] == b[0] {
      StringLessTotal(a[1..], b[1..]);
      assert a[1..] == b[1..] ==> a == [a[0]] + a[1..] && b == [b[0]] + b[1..];
    }
  }

  lemma {:induction false} StringLessTransitive(a: string, b: string, c: string)
    requires StringLess(a, b) && StringLess(b, c)
    ensures StringLess(a, c)
  {
    if a != [] && a[0] == b[0] && b[0] == c[0] {
      StringLessTransitive(a[1..], b[1..], c[1..]);
    }
  }

  lemma BeforeTotal(a: Bucket, b: Bucket)
    ensures Before(a, b) || Before(b, a) || a == b
  {
    StringLessTotal(a.device, b.device);
    StringLessTotal(a.group, b.group);
  }

  lemma BeforeTransitive(a: Bucket, b: Bucket, c: Bucket)
    requires Before(a, b) && Before(b, c)
    ensures Before(a, c)
  {
    if a.device == b.device && b.device == c.device {
      StringLessTransitive(a.group, b.group, c.group);
    } else if a.device != b.device && b.device != c.device {
      StringLessTransitive(a.device, b.device, c.device);
      if a.device == c.device {
        StringLessNever(a.device, b.device);
      }
    }
  }

  lemma {:induction false} StringLessNever(a: string, b: string)
    requires StringLess(a, b)
    ensures !StringLess(b, a)
  {
    if a != [] && a[0] == b[0] {
      StringLessNever(a[1..], b[1..]);
    }
  }

  /** Strictly increasing: the dispatch order of a set of buckets. */
  ghost predicate Sorted(buckets: seq<Bucket>) {
    forall i, j :: 0 <= i < j < |buckets| ==> Before(buckets[i], buckets[j])
  }

  ghost predicate SameMembers(a: seq<Bucket>, b: seq<Bucket>) {
    forall x: Bucket :: x in a <==> x in b
  }

  method InsertSorted(sorted: seq<Bucket>, b: Bucket) returns (out: seq<Bucket>)
    requires Sorted(sorted) && b !in sorted
    ensures Sorted(out) && SameMembers(out, sorted + [b]) && |out| == |sorted| + 1
  {
    var i := |sorted|;
    while i > 0 && Before(b, sorted[i - 1])
      invariant 0 <= i <= |sorted|
      invariant forall j :: i <= j < |sorted| ==> Before(b, sorted[j])
    {
      i := i - 1;
    }
    out := sorted[..i] + [b] + sorted[i..];
    forall j | 0 <= j < i
      ensures Before(sorted[j], b)
    {
      BeforeTotal(sorted[i - 1], b);
      if j < i - 1 {
        BeforeTransitive(sorted[j], sorted[i - 1], b);
      }
    }
    assert sorted == sorted[..i] + sorted[i..];
  }

  method SortBuckets(keys: seq<Bucket>) returns (sorted: seq<Bucket>)
    requires Distinct(keys)
    ensures Sorted(sorted) && SameMembers(sorted, keys)
  {
    sorted := [];
    for n := 0 to |keys|
      invariant Sorted(sorted) && SameMembers(sorted, keys[..n])
    {
      assert keys[n] !in keys[..n];
      sorted := InsertSorted(sorted, keys[n]);
      assert keys[..n + 1] == keys[..n] + [keys[n]];
    }
    assert keys[..|keys|] == keys;
  }

  /** Grouping keeps each bucket's records in order and lists every bucket once. */
  method Bucketize(rs: seq<Record>) returns (buckets: map<Bucket, seq<Record>>, keys: seq<Bucket>)
    ensures Distinct(keys) && forall b :: b in keys <==> b in buckets
    ensures forall b :: b in buckets ==> buckets[b] == Select(rs, b)
    ensures forall b: Bucket :: b in buckets <==> Select(rs, b) != []
  {
    buckets, keys := map[], [];
    assert rs[..0] == [];
    for n := 0 to |rs|
      invariant Distinct(keys) && forall b :: b in keys <==> b in buckets
      invariant forall b :: b in buckets ==> buckets[b] == Select(rs[..n], b)
      invariant forall b: Bucket :: b in buckets <==> Select(rs[..n], b) != []
    {
      assert rs[..n + 1][..n] == rs[..n];
      var b := BucketOf(rs[n]);
      if b !in buckets {
        keys := keys + [b];
        buckets := buckets[b := [rs[n]]];
      } else {
        buckets := buckets[b := buckets[b] + [rs[n]]];
      }
    }
    assert rs[..|rs|] == rs;
  }

  method SplitBatches(b: Bucket, at: int, rs: seq<Record>) returns (batches: seq<Batch>)
    ensures batches == Split(b, at, rs)
  {
    if |rs| <= MAX_RECORDS_PER_BATCH {
      return [Batch(b, at, rs)];
    }
    batches := [];
    var i := 0;
    assert rs[0..] == rs;
    while i < |rs|
      invariant 0 <= i <= |rs|
      invariant batches + SplitFrom(b, at, rs, i) == Split(b, at, rs)
    {
      var end := i + MAX_RECORDS_PER_BATCH;
      if end > |rs| {
        end := |rs|;
      }
      SplitHead(b, at, rs, i, end);
      Associate(batches, [Batch(b, at, rs[i..end])], SplitFrom(b, at, rs, end));
      batches := batches + [Batch(b, at, rs[i..end])];
      i := end;
    }
  }

  ghost function SplitFrom(b: Bucket, at: int, rs: seq<Record>, i: nat): seq<Batch>
    requires i <= |rs|
  {
    if i < |rs| then Split(b, at, rs[i..]) else []
  }

  lemma SplitHead(b: Bucket, at: int, rs: seq<Record>, i: nat, end: nat)
    requires i < end <= |rs| && (end == |rs| || end == i + MAX_RECORDS_PER_BATCH) && end - i <= MAX_RECORDS_PER_BATCH
    ensures SplitFrom(b, at, rs, i) == [Batch(b, at, rs[i..end])] + SplitFrom(b, at, rs, end)
  {
    if end < |rs| {
      assert rs[i..][..MAX_RECORDS_PER_BATCH] == rs[i..end];
      assert rs[i..][MAX_RECORDS_PER_BATCH..] == rs[end..];
    } else {
      assert rs[i..] == rs[i..end];
    }
  }

  class PushService {
    var channels: map<string, Channel>
    var changeOnly: bool
    var keepalive: int
    var last: Tracker

    ghost function Now(): Engine
      reads this
    {
      Engine(channels, changeOnly, keepalive, last)
    }

    predicate Takes(b: Bucket)
      reads this
    {
      exists id :: id in channels && channels[id].accepts(b)
    }

    /** One bucket: takers first, then the filter, then the slices. */
    method Dispatch(b: Bucket, rs: seq<Record>, now: int)
      modifies this`channels, this`last
      ensures Now() == PushBucket(old(Now()), b, rs, now)
    {
      if !Takes(b) {
        return;
      }
      var kept := rs;
      if changeOnly {
        kept := Passed(last, rs, now, keepalive);
        last := After(last, rs, now, keepalive);
      }
      channels := map id | id in channels :: Given(channels[id], b, now, rs, kept);
    }

    method DispatchAll(order: seq<Bucket>, buckets: map<Bucket, seq<Record>>, ghost rs: seq<Record>, now: int)
      requires forall b :: b in order ==> b in buckets && buckets[b] == Select(rs, b)
      modifies this`channels, this`last
      ensures Now() == PushBuckets(old(Now()), order, rs, now)
    {
      for n := 0 to |order|
        invariant Now() == PushBuckets(old(Now()), order[..n], rs, now)
      {
        assert order[..n + 1][..n] == order[..n];
        assert order[n] in order;
        Dispatch(order[n], buckets[order[n]], now);
      }
      assert order[..|order|] == order;
    }

    /** `order` is the dispatch order: every bucket of the input once, sorted. */
    method PushRecords(rs: seq<Record>, now: int) returns (ghost order: seq<Bucket>)
      modifies this`channels, this`last
      ensures Now() == PushBuckets(old(Now()), order, rs, now)
      ensures Sorted(order) && Distinct(order) && (old(channels) != map[] ==> Covers(order, rs))
    {
      if |rs| == 0 || channels == map[] {
        return [];
      }
      var sorted, buckets := Arrange(rs);
      DispatchAll(sorted, buckets, rs, now);
      SortedIsDistinct(sorted);
      order := sorted;
    }
  }

  ghost predicate Covers(order: seq<Bucket>, rs: seq<Record>) {
    forall b: Bucket :: b in order <==> Select(rs, b) != []
  }

  method Arrange(rs: seq<Record>) returns (sorted: seq<Bucket>, buckets: map<Bucket, seq<Record>>)
    ensures Sorted(sorted) && Covers(sorted, rs)
    ensures forall b :: b in sorted ==> b in buckets && buckets[b] == Select(rs, b)
  {
    var keys;
    buckets, keys := Bucketize(rs);
    sorted := SortBuckets(keys);
  }

  lemma SortedIsDistinct(buckets: seq<Bucket>)
    requires Sorted(buckets)
    ensures Distinct(buckets)
  {
    forall i, j | 0 <= i < j < |buckets|
      ensures buckets[i] != buckets[j]
    {
      assert Before(buckets[i], buckets[j]);
      NeverBeforeItself(buckets[i]);
    }
  }

  lemma NeverBeforeItself(b: Bucket)
    ensures !Before(b, b)
  {
    if StringLess(b.group, b.group) {
      StringLessNever(b.group, b.group);
    }
  }
}
