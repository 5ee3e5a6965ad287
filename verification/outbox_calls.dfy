/**
 The channel operations of push/outbox.go as whole calls with no other goroutine
 in between: what Enqueue, SpoolEnqueue and the write loop's merging do to the
 state that Outbox takes apart step by step.
 */
module OutboxCalls {

  import opened Wrappers
  import opened Outbox

  /** SpoolEnqueue from `put` on, to its end. */
  function PutToEnd(sh: Shared, b: Batch, put: Put): Shared
    decreases match put { case Try => 2 case PopOldest => 1 case TryAgain => 0 }
  {
    var (sh', next) := PutStep(sh, b, put);
    match next
    case None => sh'
    case Some(p) =>
      if (put.Try? && p.PopOldest?) || (put.PopOldest? && p.TryAgain?) then PutToEnd(sh', b, p) else sh'
  }

  /** Uninterrupted, the buffer always ends up holding b, losing the oldest and counting it only when it was full. */
  lemma PutKeepsNewest(sh: Shared, b: Batch)
    requires |sh.spoolCh| <= SPOOL_CH_SIZE
    ensures var full := |sh.spoolCh| == SPOOL_CH_SIZE; var t := PutToEnd(sh, b, Try);
            && t.spoolCh == (if full then sh.spoolCh[1..] else sh.spoolCh) + [b]
            && t.droppedCount == sh.droppedCount + (if full then 1 else 0)
            && t.queue == sh.queue && t.spool == sh.spool
  {
  }

  function Rank(at: EnqueueAt): nat {
    match at
    case Route => 6
    case TryQueue => 5
    case PopQueue => 4
    case TryQueueAgain => 3
    case ToSpool(Try) => 2
    case ToSpool(PopOldest) => 1
    case ToSpool(TryAgain) => 0
  }

  /** Enqueue from `at` on, to its end. */
  function EnqueueToEnd(cfg: Config, sh: Shared, b: Batch, at: EnqueueAt, connected: bool): Shared
    decreases Rank(at)
  {
    var m := Enqueue(cfg, sh, b, at, connected);
    if m.t.batch.Some? && Rank(m.t.enq) < Rank(at) then EnqueueToEnd(cfg, m.sh, b, m.t.enq, connected) else m.sh
  }

  lemma {:induction false} SpoolRoute(cfg: Config, sh: Shared, b: Batch, put: Put, connected: bool)
    ensures EnqueueToEnd(cfg, sh, b, ToSpool(put), connected) == PutToEnd(sh, b, put)
    decreases Rank(ToSpool(put))
  {
    var (sh', next) := PutStep(sh, b, put);
    if next.Some? && Rank(ToSpool(next.value)) < Rank(ToSpool(put)) {
      SpoolRoute(cfg, sh', b, next.value, connected);
    }
  }

  /** The routes of Enqueue, step by step and undisturbed. */
  lemma EnqueueRoutes(cfg: Config, sh: Shared, b: Batch, connected: bool)
    requires cfg.queueSize > 0 && |sh.queue| <= cfg.queueSize
    ensures var t := EnqueueToEnd(cfg, sh, b, Route, connected);
            && (cfg.spoolOn && (!connected || |sh.queue| == cfg.queueSize) ==> t == PutToEnd(sh, b, Try))
            && (!(cfg.spoolOn && !connected) && |sh.queue| < cfg.queueSize ==> t == sh.(queue := sh.queue + [b]))
            && (!cfg.spoolOn && |sh.queue| == cfg.queueSize ==>
                  t == Lost(sh, [sh.queue[0]]).(queue := sh.queue[1..] + [b]))
  {
    SpoolRoute(cfg, sh, b, Try, connected);
    var popped := Lost(sh.(queue := Rest(sh.queue)), First(sh.queue));
    assert EnqueueToEnd(cfg, sh, b, Route, connected)
        == EnqueueToEnd(cfg, sh, b, if cfg.spoolOn && !connected then ToSpool(Try) else TryQueue, connected);
    if !cfg.spoolOn && |sh.queue| == cfg.queueSize {
      assert EnqueueToEnd(cfg, popped, b, TryQueueAgain, connected) == popped.(queue := popped.queue + [b]);
      assert EnqueueToEnd(cfg, sh, b, PopQueue, connected) == EnqueueToEnd(cfg, popped, b, TryQueueAgain, connected);
    }
  }

  class Channel {
    const cfg: Config
    var queue: seq<Batch>
    var spoolCh: seq<Batch>
    var spool: seq<Batch>
    var droppedCount: nat
    var trimTick: nat
    ghost var log: seq<Exit>

    constructor (cfg: Config)
      ensures this.cfg == cfg && Valid() && Now() == Shared([], [], [], 0, 0, [])
    {
      this.cfg := cfg;
      queue, spoolCh, spool, droppedCount, trimTick, log := [], [], [], 0, 0, [];
    }

    ghost predicate Valid()
      reads this
    {
      |queue| <= cfg.queueSize && |spoolCh| <= SPOOL_CH_SIZE
    }

    ghost function Now(): Shared
      reads this
    {
      Shared(queue, spoolCh, spool, droppedCount, trimTick, log)
    }

    method SpoolEnqueue(b: Batch)
      requires Valid()
      modifies this
      ensures Valid()
      ensures Now() == if cfg.spoolOn then PutToEnd(old(Now()), b, Try) else old(Now())
    {
      if !cfg.spoolOn {
        return;
      }
      if |spoolCh| < SPOOL_CH_SIZE {
        spoolCh := spoolCh + [b];
        return;
      }
      if |spoolCh| > 0 {
        log := log + Exits([spoolCh[0]], Dropped);
        spoolCh := spoolCh[1..];
        droppedCount := droppedCount + 1;
      }
      if |spoolCh| < SPOOL_CH_SIZE {
        spoolCh := spoolCh + [b];
      } else {
        assert false; // only another sender could have taken the place just freed
      }
    }

    /**
     The routes of Enqueue: a lost connection or a full queue diverts to the
     cache if there is one; otherwise the newest batches are kept.  A queue of
     size 0 cannot be configured.
     */
    method Enqueue(b: Batch, connected: bool)
      requires Valid() && cfg.queueSize > 0
      modifies this
      ensures Valid()
      ensures (cfg.spoolOn && (!connected || |old(queue)| == cfg.queueSize)) ==>
                Now() == PutToEnd(old(Now()), b, Try)
      ensures (!(cfg.spoolOn && !connected) && |old(queue)| < cfg.queueSize) ==>
                Now() == old(Now()).(queue := old(queue) + [b])
      ensures (!cfg.spoolOn && |old(queue)| == cfg.queueSize) ==>
                Now() == Lost(old(Now()), [old(queue)[0]]).(queue := old(queue)[1..] + [b])
      ensures Now() == EnqueueToEnd(cfg, old(Now()), b, Route, connected)
    {
      EnqueueRoutes(cfg, Now(), b, connected);
      if cfg.spoolOn && !connected {
        SpoolEnqueue(b);
        return;
      }
      if |queue| < cfg.queueSize {
        queue := queue + [b];
        return;
      }
      if cfg.spoolOn {
        SpoolEnqueue(b);
        return;
      }
      if |queue| > 0 {
        log := log + Exits([queue[0]], Dropped);
        queue := queue[1..];
        droppedCount := droppedCount + 1;
      }
      if |queue| < cfg.queueSize {
        queue := queue + [b];
      } else {
        assert false; // only another sender could have taken the place just freed
      }
    }

    /** What is already queued joins the buffer, in order, up to the merge limit. */
    method CollectSpoolBatch(first: seq<Batch>) returns (buf: seq<Batch>)
      requires Valid() && |first| <= SPOOL_WRITE_BATCH
      modifies this`spoolCh
      ensures Valid() && buf + spoolCh == first + old(spoolCh) && first <= buf
      ensures |buf| == SPOOL_WRITE_BATCH || (|buf| < SPOOL_WRITE_BATCH && spoolCh == [])
    {
      buf := first;
      while |buf| < SPOOL_WRITE_BATCH && |spoolCh| > 0
        invariant |buf| <= SPOOL_WRITE_BATCH && |spoolCh| <= SPOOL_CH_SIZE
        invariant buf + spoolCh == first + old(spoolCh) && first <= buf
        decreases |spoolCh|
      {
        assert buf + spoolCh == (buf + [spoolCh[0]]) + spoolCh[1..];
        buf := buf + [spoolCh[0]];
        spoolCh := spoolCh[1..];
      }
    }

    /**
     The rows in front of those just written were trimmed only when the tick fell
     due and the cache was at its limit.  Here storage works.
     */
    method InsertMany(batches: seq<Batch>)
      requires Valid()
      modifies this
      ensures Valid() && queue == old(queue) && spoolCh == old(spoolCh) && droppedCount == old(droppedCount)
      ensures batches == [] ==> Now() == old(Now())
      ensures batches != [] ==>
                var t := Trim(cfg, old(Now()), |batches|, true); Now() == t.(spool := t.spool + batches)
    {
      if |batches| == 0 {
        return;
      }
      trimTick := trimTick + |batches|;
      if trimTick >= TRIM_INTERVAL {
        trimTick := 0;
        if |spool| >= cfg.spoolCap {
          var k := if |spool| < TRIM_CHUNK then |spool| else TRIM_CHUNK;
          log := log + Exits(spool[..k], Trimmed);
          spool := spool[k..];
        }
      }
      spool := spool + batches;
    }

    /** The write loop's last act: the buffer is emptied into the cache, in order, at most trimming older rows. */
    method DrainSpoolCh()
      requires Valid()
      modifies this
      ensures Valid() && spoolCh == [] && queue == old(queue) && droppedCount == old(droppedCount)
      ensures exists k :: 0 <= k <= |old(spool) + old(spoolCh)| && spool == (old(spool) + old(spoolCh))[k..]
    {
      ghost var all, gone := spool + spoolCh, 0;
      while |spoolCh| > 0
        invariant Valid() && queue == old(queue) && droppedCount == old(droppedCount)
        invariant 0 <= gone <= |all| && spool + spoolCh == all[gone..]
        decreases |spoolCh|
      {
        ghost var rows, waiting := spool, spoolCh;
        var first := [spoolCh[0]];
        spoolCh := spoolCh[1..];
        var buf := CollectSpoolBatch(first);
        ghost var k := TrimmedBy(cfg, Now(), |buf|);
        InsertMany(buf);
        Shifted(all, gone, k, rows, waiting, buf, spoolCh);
        gone := gone + k;
      }
      assert spool == all[gone..];
    }
  }

  ghost function TrimmedBy(cfg: Config, sh: Shared, n: nat): (k: nat)
    ensures k <= |sh.spool| && Trim(cfg, sh, n, true).spool == sh.spool[k..]
  {
    if sh.trimTick + n < TRIM_INTERVAL || |sh.spool| < cfg.spoolCap then 0
    else if |sh.spool| < TRIM_CHUNK then |sh.spool| else TRIM_CHUNK
  }

  lemma Shifted(all: seq<Batch>, gone: nat, k: nat, rows: seq<Batch>, waiting: seq<Batch>,
                buf: seq<Batch>, rest: seq<Batch>)
    requires gone <= |all| && rows + waiting == all[gone..] && k <= |rows| && buf + rest == waiting
    ensures gone + k <= |all| && (rows[k..] + buf) + rest == all[gone + k..]
  {
    assert |rows| + |waiting| == |all| - gone;
    assert (rows[k..] + buf) + rest == rows[k..] + waiting;
    assert rows[k..] + waiting == (rows + waiting)[k..];
    assert all[gone..][k..] == all[gone + k..];
  }
}
