/**
 Distribution of collected records to the push channels (push/engine.go): buckets
 by device and group, change filtering, slicing into batches, and the hot refresh
 of the channel list.  Each call is one atomic step.
 */
module PushEngine {

  import opened Change
  import opened Collections

  const MAX_RECORDS_PER_BATCH: nat := 500

  datatype Bucket = Bucket(device: string, group: string)

  datatype Batch = Batch(bucket: Bucket, at: int, records: seq<Record>)

  /**
   A running channel instance; its group selection is part of its configuration.
   `sent` is what was enqueued to it; `offered` everything it accepts that was
   pushed since it started, suppressed or not.
   */
  datatype Channel = Channel(sig: string, accepts: Bucket -> bool, sent: seq<Batch>, offered: seq<Sent>)

  datatype Engine = Engine(channels: map<string, Channel>, changeOnly: bool, keepalive: int, last: Tracker)

  function BucketOf(r: Record): Bucket {
    Bucket(r.deviceID, r.facts.groupID)
  }

  /** The records of one bucket, in their order. */
  function Select(rs: seq<Record>, b: Bucket): (out: seq<Record>)
    ensures AllIn(out, b.device, b.group) && forall r :: r in rs && BucketOf(r) == b ==> r in out
  {
    if rs == [] then []
    else Select(rs[..|rs| - 1], b) + if BucketOf(rs[|rs| - 1]) == b then [rs[|rs| - 1]] else []
  }

  /** splitBatches; an empty input yields one empty batch. */
  function Split(b: Bucket, at: int, rs: seq<Record>): (batches: seq<Batch>)
    ensures |batches| > 0
    decreases |rs|
  {
    if |rs| <= MAX_RECORDS_PER_BATCH then [Batch(b, at, rs)]
    else [Batch(b, at, rs[..MAX_RECORDS_PER_BATCH])] + Split(b, at, rs[MAX_RECORDS_PER_BATCH..])
  }

  /** The stream of records a channel got. */
  function Received(sent: seq<Batch>): seq<Sent> {
    if sent == [] then []
    else Received(sent[..|sent| - 1]) + Stamp(sent[|sent| - 1].records, sent[|sent| - 1].at)
  }

  ghost predicate Wanted(e: Engine, b: Bucket) {
    exists id :: id in e.channels && e.channels[id].accepts(b)
  }

  function Kept(e: Engine, rs: seq<Record>, now: int): seq<Record> {
    if e.changeOnly then Passed(e.last, rs, now, e.keepalive) else rs
  }

  function Given(c: Channel, b: Bucket, now: int, rs: seq<Record>, kept: seq<Record>): Channel {
    if !c.accepts(b) then c
    else c.(sent := c.sent + (if kept == [] then [] else Split(b, now, kept)),
            offered := c.offered + Stamp(rs, now))
  }

  /** One bucket: without a taker nothing is noted as passed on. */
  ghost function PushBucket(e: Engine, b: Bucket, rs: seq<Record>, now: int): Engine {
    if !Wanted(e, b) then e
    else
      var kept := Kept(e, rs, now);
      e.(channels := map id | id in e.channels :: Given(e.channels[id], b, now, rs, kept),
         last := if e.changeOnly then After(e.last, rs, now, e.keepalive) else e.last)
  }

  ghost function PushBuckets(e: Engine, buckets: seq<Bucket>, rs: seq<Record>, now: int): Engine
    decreases |buckets|
  {
    if buckets == [] then e
    else
      var n := |buckets| - 1;
      PushBucket(PushBuckets(e, buckets[..n], rs, now), buckets[n], Select(rs, buckets[n]), now)
  }

  /** A configured channel as loaded from the database. */
  datatype Built = Built(sig: string, accepts: Bucket -> bool)

  predicate Retained(e: Engine, id: string, b: Built) {
    id in e.channels && e.channels[id].sig == b.sig
  }

  /** A new or rebuilt channel has seen nothing yet. */
  ghost predicate HasNewcomer(e: Engine, built: map<string, Built>) {
    exists id :: id in built && !Retained(e, id, built[id])
  }

  ghost function Refreshed(e: Engine, built: map<string, Built>): Engine {
    e.(channels := map id | id in built ::
                     if Retained(e, id, built[id]) then e.channels[id]
                     else Channel(built[id].sig, built[id].accepts, [], []),
       last := if HasNewcomer(e, built) && e.changeOnly then map[] else e.last)
  }

  /** The applier of the changeOnly switch. */
  function Toggled(e: Engine, on: bool): Engine {
    e.(changeOnly := on, last := if !e.changeOnly && on then map[] else e.last)
  }

  // ----- Slicing -----

  ghost predicate BatchOk(b: Batch) {
    && 0 < |b.records| <= MAX_RECORDS_PER_BATCH
    && AllIn(b.records, b.bucket.device, b.bucket.group)
  }

  ghost predicate BatchesOk(batches: seq<Batch>) {
    forall i :: 0 <= i < |batches| ==> BatchOk(batches[i])
  }

  lemma {:induction false} ReceivedConcat(a: seq<Batch>, b: seq<Batch>)
    ensures Received(a + b) == Received(a) + Received(b)
  {
    if b == [] {
      assert a + b == a;
    } else {
      var front, last := b[..|b| - 1], b[|b| - 1];
      ReceivedConcat(a, front);
      assert (a + b)[..|a + b| - 1] == a + front && (a + b)[|a + b| - 1] == last;
      Associate(Received(a), Received(front), Stamp(last.records, last.at));
    }
  }

  /** Slicing neither loses, repeats nor reorders, and never mixes buckets. */
  lemma {:induction false} SplitKeepsAll(b: Bucket, at: int, rs: seq<Record>)
    requires rs != [] && AllIn(rs, b.device, b.group)
    ensures BatchesOk(Split(b, at, rs)) && Received(Split(b, at, rs)) == Stamp(rs, at)
    decreases |rs|
  {
    if |rs| <= MAX_RECORDS_PER_BATCH {
    } else {
      var head, tail := rs[..MAX_RECORDS_PER_BATCH], rs[MAX_RECORDS_PER_BATCH..];
      SplitKeepsAll(b, at, tail);
      ReceivedConcat([Batch(b, at, head)], Split(b, at, tail));
      assert rs == head + tail;
      StampConcat(head, tail, at);
    }
  }

  // ----- Suppression is invisible -----

  /**
   Every channel knows the facts it would know if nothing were suppressed, and
   while suppression is on the tracker only vouches for what each taker has got.
   */
  ghost predicate ChannelOk(e: Engine, c: Channel) {
    && SameFacts(View(Received(c.sent)), View(c.offered))
    && (e.changeOnly ==> Vouches(e.last, Received(c.sent), c.accepts))
    && BatchesOk(c.sent)
  }

  ghost predicate Vouches(last: Tracker, got: seq<Sent>, accepts: Bucket -> bool) {
    forall b: Bucket :: accepts(b) ==> Tracks(last, View(got), b.device, b.group)
  }

  ghost predicate Inv(e: Engine) {
    forall id :: id in e.channels ==> ChannelOk(e, e.channels[id])
  }

  lemma GivenReceives(c: Channel, b: Bucket, now: int, rs: seq<Record>, kept: seq<Record>)
    requires c.accepts(b) && BatchesOk(c.sent)
    requires AllIn(kept, b.device, b.group)
    ensures Received(Given(c, b, now, rs, kept).sent) == Received(c.sent) + Stamp(kept, now)
    ensures BatchesOk(Given(c, b, now, rs, kept).sent)
  {
    if kept == [] {
      assert c.sent + [] == c.sent;
    } else {
      SplitKeepsAll(b, now, kept);
      ReceivedConcat(c.sent, Split(b, now, kept));
    }
  }

  lemma {:induction false} ViewSame(got: seq<Sent>, full: seq<Sent>, more: seq<Record>, now: int)
    requires SameFacts(View(got), View(full))
    ensures SameFacts(View(got + Stamp(more, now)), View(full + Stamp(more, now)))
  {
    if more == [] {
      assert got + [] == got && full + [] == full;
    } else {
      var front := more[..|more| - 1];
      var s := Sent(more[|more| - 1], now);
      ViewSame(got, full, front, now);
      assert got + Stamp(more, now) == (got + Stamp(front, now)) + [s];
      assert full + Stamp(more, now) == (full + Stamp(front, now)) + [s];
      ViewSnoc(got + Stamp(front, now), s);
      ViewSnoc(full + Stamp(front, now), s);
    }
  }

  lemma {:induction false} ViewIsLocal(got: seq<Sent>, more: seq<Record>, now: int, b: Bucket, k: Key)
    requires AllIn(more, b.device, b.group)
    requires k.deviceID != b.device || k.groupID != b.group
    ensures var v := View(got + Stamp(more, now));
            (k in v <==> k in View(got)) && (k in v ==> v[k] == View(got)[k])
  {
    if more == [] {
      assert got + [] == got;
    } else {
      var front := more[..|more| - 1];
      var s := Sent(more[|more| - 1], now);
      AllButLast(more, b.device, b.group);
      ViewIsLocal(got, front, now, b, k);
      assert got + Stamp(more, now) == (got + Stamp(front, now)) + [s];
      ViewSnoc(got + Stamp(front, now), s);
    }
  }

  lemma {:induction false} KeysStayKeyed(last: Tracker, rs: seq<Record>, now: int, keepalive: int, k: Key)
    requires forall q :: q in last ==> q.deviceID != "" && q.addressID != ""
    requires k in After(last, rs, now, keepalive)
    ensures k.deviceID != "" && k.addressID != ""
  {
    if rs != [] {
      var front := rs[..|rs| - 1];
      if k in After(last, front, now, keepalive) {
        KeysStayKeyed(last, front, now, keepalive, k);
      }
    }
  }

  /** What the tracker says about another bucket is untouched by this one. */
  lemma OtherBucketTracked(last: Tracker, rs: seq<Record>, now: int, keepalive: int, b: Bucket,
                           got: seq<Sent>, more: seq<Record>, other: Bucket)
    requires AllIn(rs, b.device, b.group)
    requires AllIn(more, b.device, b.group)
    requires other != b && Tracks(last, View(got), other.device, other.group)
    ensures Tracks(After(last, rs, now, keepalive), View(got + Stamp(more, now)), other.device, other.group)
  {
    var t, v := After(last, rs, now, keepalive), View(got + Stamp(more, now));
    forall k | k in t
      ensures k.deviceID != "" && k.addressID != ""
    {
      KeysStayKeyed(last, rs, now, keepalive, k);
    }
    forall k | k in t && k.deviceID == other.device && k.groupID == other.group
      ensures k in v && v[k] == t[k]
    {
      FilterIsLocal(last, rs, now, keepalive, b.device, b.group, k);
      ViewIsLocal(got, more, now, b, k);
    }
  }

  lemma StillVouches(last: Tracker, rs: seq<Record>, now: int, keepalive: int, b: Bucket,
                     got: seq<Sent>, more: seq<Record>, accepts: Bucket -> bool)
    requires AllIn(rs, b.device, b.group)
    requires AllIn(more, b.device, b.group)
    requires Vouches(last, got, accepts)
    requires accepts(b) ==> Tracks(After(last, rs, now, keepalive), View(got + Stamp(more, now)), b.device, b.group)
    ensures Vouches(After(last, rs, now, keepalive), got + Stamp(more, now), accepts)
  {
    forall other: Bucket | accepts(other)
      ensures Tracks(After(last, rs, now, keepalive), View(got + Stamp(more, now)), other.device, other.group)
    {
      if other != b {
        OtherBucketTracked(last, rs, now, keepalive, b, got, more, other);
      }
    }
  }

  /** A taker of the bucket, with suppression on. */
  lemma TakerStaysOk(e: Engine, c: Channel, b: Bucket, rs: seq<Record>, now: int)
    requires ChannelOk(e, c) && e.changeOnly && c.accepts(b)
    requires AllIn(rs, b.device, b.group)
    ensures var c' := Given(c, b, now, rs, Passed(e.last, rs, now, e.keepalive));
            && BatchesOk(c'.sent) && SameFacts(View(Received(c'.sent)), View(c'.offered))
            && Vouches(After(e.last, rs, now, e.keepalive), Received(c'.sent), c'.accepts)
  {
    GivenReceives(c, b, now, rs, Passed(e.last, rs, now, e.keepalive));
    assert Tracks(e.last, View(Received(c.sent)), b.device, b.group);
    FilterIsInvisible(e.last, rs, now, e.keepalive, b.device, b.group, Received(c.sent), c.offered);
    StillVouches(e.last, rs, now, e.keepalive, b, Received(c.sent), Passed(e.last, rs, now, e.keepalive), c.accepts);
  }

  lemma BystanderStaysOk(e: Engine, c: Channel, b: Bucket, rs: seq<Record>, now: int)
    requires ChannelOk(e, c) && e.changeOnly && !c.accepts(b)
    requires AllIn(rs, b.device, b.group)
    ensures Vouches(After(e.last, rs, now, e.keepalive), Received(c.sent), c.accepts)
  {
    StillVouches(e.last, rs, now, e.keepalive, b, Received(c.sent), [], c.accepts);
    assert Received(c.sent) + [] == Received(c.sent);
  }

  lemma UnfilteredStaysOk(e: Engine, c: Channel, b: Bucket, rs: seq<Record>, now: int)
    requires ChannelOk(e, c) && !e.changeOnly
    requires AllIn(rs, b.device, b.group)
    ensures var c' := Given(c, b, now, rs, rs);
            BatchesOk(c'.sent) && SameFacts(View(Received(c'.sent)), View(c'.offered))
  {
    if c.accepts(b) {
      GivenReceives(c, b, now, rs, rs);
      ViewSame(Received(c.sent), c.offered, rs, now);
    }
  }

  lemma PushBucketKeeps(e: Engine, b: Bucket, rs: seq<Record>, now: int)
    requires Inv(e) && AllIn(rs, b.device, b.group)
    ensures Inv(PushBucket(e, b, rs, now))
  {
    var t := PushBucket(e, b, rs, now);
    forall id | id in t.channels
      ensures ChannelOk(t, t.channels[id])
    {
      var c := e.channels[id];
      assert ChannelOk(e, c);
      if Wanted(e, b) {
        if !e.changeOnly {
          UnfilteredStaysOk(e, c, b, rs, now);
        } else if c.accepts(b) {
          TakerStaysOk(e, c, b, rs, now);
        } else {
          BystanderStaysOk(e, c, b, rs, now);
        }
      }
    }
  }

  lemma {:induction false} PushKeeps(e: Engine, buckets: seq<Bucket>, rs: seq<Record>, now: int)
    requires Inv(e)
    ensures Inv(PushBuckets(e, buckets, rs, now))
    decreases |buckets|
  {
    if buckets != [] {
      var n := |buckets| - 1;
      PushKeeps(e, buckets[..n], rs, now);
      PushBucketKeeps(PushBuckets(e, buckets[..n], rs, now), buckets[n], Select(rs, buckets[n]), now);
    }
  }

  /** What was passed on is forgotten exactly for a newcomer under suppression; a retained channel keeps running. */
  lemma RefreshKeeps(e: Engine, built: map<string, Built>)
    requires Inv(e)
    ensures Inv(Refreshed(e, built))
    ensures Refreshed(e, built).last == if HasNewcomer(e, built) && e.changeOnly then map[] else e.last
    ensures Refreshed(e, built).channels.Keys == built.Keys
    ensures forall id :: id in built ==>
              var c := Refreshed(e, built).channels[id];
              && c.sig == built[id].sig
              && (if id in e.channels && e.channels[id].sig == built[id].sig then c == e.channels[id]
                  else c.sent == [] && c.offered == [] && c.accepts == built[id].accepts)
  {
    var t := Refreshed(e, built);
    forall id | id in t.channels
      ensures ChannelOk(t, t.channels[id])
    {
      if Retained(e, id, built[id]) {
        assert ChannelOk(e, e.channels[id]);
      }
    }
  }

  /** Switching suppression back on forgets what was passed on; nothing else does. */
  lemma ToggleKeeps(e: Engine, on: bool)
    requires Inv(e)
    ensures Inv(Toggled(e, on)) && Toggled(e, on).channels == e.channels
    ensures Toggled(e, on).last == if on && !e.changeOnly then map[] else e.last
  {
    var t := Toggled(e, on);
    forall id | id in t.channels
      ensures ChannelOk(t, t.channels[id])
    {
      assert ChannelOk(e, e.channels[id]);
    }
  }

  /** What a channel has of a stream of records and of the first i records of a bucket. */
  function HadAt(e: Engine, c: Channel, rs: seq<Record>, now: int, i: nat): map<Key, Entry>
    requires i <= |rs|
  {
    View(Received(c.sent) + Stamp(Passed(e.last, rs[..i], now, e.keepalive), now))
  }

  /**
   At any place i of any bucket a channel takes, with suppression on: the record goes
   out exactly when its point is new since the last reset, when a fact differs from
   what the channel has by then, or when the keepalive has run since the channel last
   got it.  What goes out is delivered to the channel, in order.
   */
  lemma ResentExactlyWhenDue(e: Engine, id: string, b: Bucket, rs: seq<Record>, now: int, i: nat)
    requires Inv(e) && e.changeOnly && id in e.channels && e.channels[id].accepts(b)
    requires AllIn(rs, b.device, b.group) && i < |rs| && Keyed(rs[i])
    ensures var c, r := e.channels[id], rs[i];
            var t, had := After(e.last, rs[..i], now, e.keepalive), HadAt(e, c, rs, now, i);
            var before, after := Kept(e, rs[..i], now), Kept(e, rs[..i + 1], now);
            && before <= after <= Kept(e, rs, now)
            && (KeyOf(r) in t ==> KeyOf(r) in had)
            && (after == before + [r]
                <==> || KeyOf(r) !in t || had[KeyOf(r)].facts != r.facts
                     || (e.keepalive > 0 && now - had[KeyOf(r)].at >= e.keepalive))
            && (after == before + [r] || after == before)
            && Received(PushBucket(e, b, rs, now).channels[id].sent) == Received(c.sent) + Stamp(Kept(e, rs, now), now)
  {
    var c, r, front := e.channels[id], rs[i], rs[..i];
    assert ChannelOk(e, c) && Tracks(e.last, View(Received(c.sent)), b.device, b.group);
    FilterIsInvisible(e.last, front, now, e.keepalive, b.device, b.group, Received(c.sent), Received(c.sent));
    assert r in rs;
    PassesInPlace(e.last, rs, now, e.keepalive, i);
    GivenReceives(c, b, now, rs, Kept(e, rs, now));
  }

  // ----- Whole runs -----

  /** The buckets of a push, in whatever order they are dispatched. */
  datatype Action =
    | Push(records: seq<Record>, buckets: seq<Bucket>, now: int)
    | Refresh(built: map<string, Built>)
    | Toggle(on: bool)
    | SetKeepalive(interval: int)
    | Stop

  ghost function Step(e: Engine, a: Action): Engine {
    match a
    case Push(rs, buckets, now) => PushBuckets(e, buckets, rs, now)
    case Refresh(built) => Refreshed(e, built)
    case Toggle(on) => Toggled(e, on)
    case SetKeepalive(interval) => e.(keepalive := interval)
    case Stop => e.(channels := map[])
  }

  ghost function Run(actions: seq<Action>): Engine {
    if actions == [] then Engine(map[], false, 0, map[])
    else Step(Run(actions[..|actions| - 1]), actions[|actions| - 1])
  }

  lemma StepKeeps(e: Engine, a: Action)
    requires Inv(e)
    ensures Inv(Step(e, a))
  {
    match a
    case Push(rs, buckets, now) => PushKeeps(e, buckets, rs, now);
    case Refresh(built) => RefreshKeeps(e, built);
    case Toggle(on) => ToggleKeeps(e, on);
    case SetKeepalive(interval) =>
      var t := Step(e, a);
      forall id | id in t.channels
        ensures ChannelOk(t, t.channels[id])
      {
        assert ChannelOk(e, e.channels[id]);
      }
    case Stop =>
  }

  /**
   After any run of pushes, refreshes, switches and restarts, every active channel
   has, for every point it accepts, the facts it would have if nothing had ever
   been suppressed; and all it got came in proper batches.
   */
  lemma {:induction false} SuppressionIsInvisible(actions: seq<Action>)
    ensures Inv(Run(actions))
    ensures forall id :: id in Run(actions).channels ==>
              var c := Run(actions).channels[id];
              SameFacts(View(Received(c.sent)), View(c.offered)) && BatchesOk(c.sent)
  {
    if actions != [] {
      SuppressionIsInvisible(actions[..|actions| - 1]);
      StepKeeps(Run(actions[..|actions| - 1]), actions[|actions| - 1]);
    }
    assert forall id :: id in Run(actions).channels ==> ChannelOk(Run(actions), Run(actions).channels[id]);
  }

  // ----- Unchanged facts keep their distance -----

  /** A channel whose stream is watched from position `from` on, when the tracker knew the points in `memo`. */
  ghost predicate Watched(e: Engine, id: string, from: nat, memo: set<Key>, gap: int) {
    && e.changeOnly && AtLeast(e.keepalive, gap) && id in e.channels
    && Apart(e.last, Received(e.channels[id].sent), from, memo, gap)
  }

  ghost predicate Extends(e: Engine, t: Engine, id: string) {
    id in e.channels && id in t.channels && Received(e.channels[id].sent) <= Received(t.channels[id].sent)
  }

  lemma BucketKeepsWatch(e: Engine, b: Bucket, rs: seq<Record>, now: int, id: string, from: nat, memo: set<Key>, gap: int)
    requires Inv(e) && AllIn(rs, b.device, b.group) && Watched(e, id, from, memo, gap)
    ensures var t := PushBucket(e, b, rs, now); Watched(t, id, from, memo, gap) && Extends(e, t, id)
  {
    if Wanted(e, b) {
      var c := e.channels[id];
      NothingForgotten(e.last, rs, now, e.keepalive);
      if c.accepts(b) {
        assert ChannelOk(e, c) && Tracks(e.last, View(Received(c.sent)), b.device, b.group);
        FilterSpaces(e.last, rs, now, e.keepalive, b.device, b.group, Received(c.sent), from, memo, gap);
        GivenReceives(c, b, now, rs, Kept(e, rs, now));
      }
    }
  }

  lemma {:induction false} PushKeepsWatch(e: Engine, buckets: seq<Bucket>, rs: seq<Record>, now: int,
                                          id: string, from: nat, memo: set<Key>, gap: int)
    requires Inv(e) && Watched(e, id, from, memo, gap)
    ensures var t := PushBuckets(e, buckets, rs, now); Watched(t, id, from, memo, gap) && Extends(e, t, id)
    decreases |buckets|
  {
    if buckets != [] {
      var n := |buckets| - 1;
      PushKeepsWatch(e, buckets[..n], rs, now, id, from, memo, gap);
      PushKeeps(e, buckets[..n], rs, now);
      BucketKeepsWatch(PushBuckets(e, buckets[..n], rs, now), buckets[n], Select(rs, buckets[n]), now, id, from, memo, gap);
    }
  }

  /** Nothing is forgotten, suppression stays on, the channel keeps running, and no keepalive is below `gap`. */
  ghost predicate Undisturbed(e: Engine, a: Action, id: string, gap: int) {
    match a
    case Push(_, _, _) => true
    case Refresh(built) => id in built && !HasNewcomer(e, built)
    case Toggle(on) => on
    case SetKeepalive(interval) => AtLeast(interval, gap)
    case Stop => false
  }

  lemma StepKeepsWatch(e: Engine, a: Action, id: string, from: nat, memo: set<Key>, gap: int)
    requires Inv(e) && Watched(e, id, from, memo, gap) && Undisturbed(e, a, id, gap)
    ensures var t := Step(e, a); Watched(t, id, from, memo, gap) && Extends(e, t, id)
  {
    match a
    case Push(rs, buckets, now) => PushKeepsWatch(e, buckets, rs, now, id, from, memo, gap);
    case Refresh(built) => assert Retained(e, id, built[id]); RefreshKeeps(e, built);
    case _ =>
  }

  ghost predicate AllUndisturbed(actions: seq<Action>, more: seq<Action>, id: string, gap: int) {
    forall n :: 0 <= n < |more| ==> Undisturbed(Run(actions + more[..n]), more[n], id, gap)
  }

  lemma RunGoesOn(actions: seq<Action>, more: seq<Action>)
    requires more != []
    ensures Run(actions + more) == Step(Run(actions + more[..|more| - 1]), more[|more| - 1])
  {
    assert (actions + more)[..|actions + more| - 1] == actions + more[..|more| - 1];
  }

  /**
   From any point of any run at which suppression is on, for as long as nothing is
   forgotten and every keepalive is off or at least `gap`: whatever a channel that
   stays gets about a point it had been told about, with the facts it already has,
   comes at least `gap` after it last got that point.  With the keepalive off all
   along this holds for every gap, so such a point is not sent again at all.
   */
  lemma {:induction false} NeverResentEarly(actions: seq<Action>, more: seq<Action>, id: string, gap: int)
    requires var e := Run(actions); e.changeOnly && AtLeast(e.keepalive, gap) && id in e.channels
    requires AllUndisturbed(actions, more, id, gap)
    ensures var e, t := Run(actions), Run(actions + more);
            && Extends(e, t, id)
            && Spaced(Received(t.channels[id].sent), |Received(e.channels[id].sent)|, e.last.Keys, gap)
            && Watched(t, id, |Received(e.channels[id].sent)|, e.last.Keys, gap)
    decreases |more|
  {
    var e := Run(actions);
    if more == [] {
      assert actions + more == actions;
    } else {
      var front := more[..|more| - 1];
      assert forall n :: 0 <= n < |front| ==> front[..n] == more[..n];
      NeverResentEarly(actions, front, id, gap);
      SuppressionIsInvisible(actions + front);
      RunGoesOn(actions, more);
      StepKeepsWatch(Run(actions + front), more[|front|], id, |Received(e.channels[id].sent)|, e.last.Keys, gap);
    }
  }

  /** The same, delivery by delivery: two in a row about one point with equal facts are at least `gap` apart. */
  lemma RepeatsAreApart(stream: seq<Sent>, from: nat, memo: set<Key>, gap: int, i: nat, j: nat)
    requires Spaced(stream, from, memo, gap) && i < j < |stream| && from <= j
    requires Keyed(stream[j].record) && KeyOf(stream[i].record) == KeyOf(stream[j].record)
    requires stream[i].record.facts == stream[j].record.facts
    requires forall k :: i < k < j ==> KeyOf(stream[k].record) != KeyOf(stream[j].record)
    requires from <= i || KeyOf(stream[j].record) in memo
    ensures stream[j].at - stream[i].at >= gap
  {
    ViewIsLast(stream[..j], i, KeyOf(stream[j].record));
    assert SpacedAt(stream, from, memo, gap, j);
  }

  lemma {:induction false} ViewIsLast(stream: seq<Sent>, i: nat, k: Key)
    requires i < |stream| && KeyOf(stream[i].record) == k
    requires forall q :: i < q < |stream| ==> KeyOf(stream[q].record) != k
    ensures k in View(stream) && View(stream)[k] == Entry(stream[i].record.facts, stream[i].at)
  {
    if i < |stream| - 1 {
      ViewIsLast(stream[..|stream| - 1], i, k);
    }
  }
}
