/**
 The way of a batch through one push channel (push/outbox.go, push/writer.go):
 the drop-oldest queue, the aggregating workers, the drop-oldest buffer of the
 offline cache and its write loop.  Each channel operation of a goroutine is one
 step, so any interleaving of producers, workers and the write loop is a run.
 */
module Outbox {

  import opened Wrappers

  const SPOOL_CH_SIZE: nat := 1024
  const SPOOL_WRITE_BATCH: nat := 64
  const TRIM_INTERVAL: nat := 16
  const TRIM_CHUNK: nat := 16

  type Batch = nat

  datatype Config = Config(spoolOn: bool, queueSize: nat, spoolCap: nat)

  /**
   Why a batch left the channel; the write loop trims, storage may refuse, replay
   delivers or gives up on a batch the downstream will never take.
   */
  datatype Why = Delivered | Dropped | Skipped | Trimmed | Refused | Replayed | Poisoned

  datatype Exit = Exit(b: Batch, why: Why)

  /** What the goroutines share; `log` records every batch that has left, in order. */
  datatype Shared = Shared(queue: seq<Batch>, spoolCh: seq<Batch>, spool: seq<Batch>,
                           droppedCount: nat, trimTick: nat, log: seq<Exit>)

  /** Close has been called; Wait has been called. */
  datatype Flags = Flags(quit: bool, workersDone: bool)

  /** SpoolEnqueue: a try, one pop of the oldest, one more try. */
  datatype Put = Try | PopOldest | TryAgain

  datatype EnqueueAt = Route | TryQueue | PopQueue | TryQueueAgain | ToSpool(put: Put)

  datatype Resume = ToReady(draining: bool) | ToHolding(b: Batch, draining: bool) | ToExit

  datatype WorkerAt =
    | Ready(draining: bool)
    | Holding(b: Batch, draining: bool)
    | Spooling(todo: seq<Batch>, put: Put, after: Resume)
    | Exited

  /** Normal until quit; then drain, wait for the workers, drain again. */
  datatype Mode = Normal | Draining | Lingering | Final

  datatype LoopAt =
    | Idle(mode: Mode)
    | Collecting(buf: seq<Batch>, mode: Mode)
    | Inserting(buf: seq<Batch>, mode: Mode)
    | OneByOne(todo: seq<Batch>, mode: Mode)
    | Done

  datatype Thread =
    | Producer(batch: Option<Batch>, enq: EnqueueAt)
    | Worker(at: WorkerAt, pending: seq<Batch>)
    | WriteLoop(loop: LoopAt)

  datatype Outcome = Empty | Accepted | Rejected

  /** What the step of a thread is, with whatever the outside decides. */
  datatype Choice =
    | Go(connected: bool)
    | Notice
    | Take
    | Append
    | Flush(outcome: Outcome)
    | Leave(outcome: Outcome)
    | Spool
    | Collect
    | TrimOldest(ok: bool)
    | Insert(ok: bool)

  datatype Moved = Moved(sh: Shared, t: Thread)

  // ----- Drop-oldest buffers -----

  function Rest(s: seq<Batch>): seq<Batch> {
    if s == [] then [] else s[1..]
  }

  function First(s: seq<Batch>): seq<Batch> {
    if s == [] then [] else [s[0]]
  }

  function Exits(s: seq<Batch>, why: Why): (log: seq<Exit>)
    ensures |log| == |s|
  {
    if s == [] then [] else Exits(s[..|s| - 1], why) + [Exit(s[|s| - 1], why)]
  }

  function Left(sh: Shared, s: seq<Batch>, why: Why): Shared {
    sh.(log := sh.log + Exits(s, why))
  }

  /** Dropped and counted. */
  function Lost(sh: Shared, s: seq<Batch>): Shared {
    Left(sh.(droppedCount := sh.droppedCount + |s|), s, Dropped)
  }

  /** One step of SpoolEnqueue for b; None once b is off the caller's hands. */
  function PutStep(sh: Shared, b: Batch, put: Put): (Shared, Option<Put>) {
    match put
    case Try =>
      if |sh.spoolCh| < SPOOL_CH_SIZE then (sh.(spoolCh := sh.spoolCh + [b]), None) else (sh, Some(PopOldest))
    case PopOldest => (Lost(sh.(spoolCh := Rest(sh.spoolCh)), First(sh.spoolCh)), Some(TryAgain))
    case TryAgain =>
      if |sh.spoolCh| < SPOOL_CH_SIZE then (sh.(spoolCh := sh.spoolCh + [b]), None)
      else (Lost(sh, [b]), None)
  }

  // ----- Producers -----

  function Queued(cfg: Config, sh: Shared, b: Batch, full: Moved): Moved {
    if |sh.queue| < cfg.queueSize then Moved(sh.(queue := sh.queue + [b]), Producer(None, Route)) else full
  }

  function Enqueue(cfg: Config, sh: Shared, b: Batch, at: EnqueueAt, connected: bool): Moved {
    match at
    case Route =>
      Moved(sh, Producer(Some(b), if cfg.spoolOn && !connected then ToSpool(Try) else TryQueue))
    case TryQueue =>
      Queued(cfg, sh, b, Moved(sh, Producer(Some(b), if cfg.spoolOn then ToSpool(Try) else PopQueue)))
    case PopQueue =>
      Moved(Lost(sh.(queue := Rest(sh.queue)), First(sh.queue)), Producer(Some(b), TryQueueAgain))
    case TryQueueAgain =>
      Queued(cfg, sh, b, Moved(Lost(sh, [b]), Producer(None, Route)))
    case ToSpool(put) =>
      var (sh', next) := PutStep(sh, b, put);
      Moved(sh', if next.Some? then Producer(Some(b), ToSpool(next.value)) else Producer(None, Route))
  }

  // ----- Workers -----

  function Resumed(after: Resume): WorkerAt {
    match after
    case ToReady(draining) => Ready(draining)
    case ToHolding(b, draining) => Holding(b, draining)
    case ToExit => Exited
  }

  /** flush: an empty payload forgets its batches, a refused one goes to the cache or is dropped. */
  function Flushed(cfg: Config, sh: Shared, pending: seq<Batch>, outcome: Outcome, after: Resume): Moved {
    match outcome
    case Empty => Moved(Left(sh, pending, Skipped), Worker(Resumed(after), []))
    case Accepted => Moved(Left(sh, pending, Delivered), Worker(Resumed(after), []))
    case Rejected =>
      if !cfg.spoolOn then Moved(Lost(sh, pending), Worker(Resumed(after), []))
      else if pending == [] then Moved(sh, Worker(Resumed(after), []))
      else Moved(sh, Worker(Spooling(pending, Try, after), []))
  }

  function SpoolOne(sh: Shared, todo: seq<Batch>, put: Put, after: Resume): Moved
    requires todo != []
  {
    var (sh', next) := PutStep(sh, todo[0], put);
    Moved(sh', Worker(AfterPut(todo, next, after), []))
  }

  function AfterPut(todo: seq<Batch>, next: Option<Put>, after: Resume): WorkerAt
    requires todo != []
  {
    if next.Some? then Spooling(todo, next.value, after)
    else if |todo| > 1 then Spooling(todo[1..], Try, after)
    else Resumed(after)
  }

  // ----- The write loop -----

  function Trim(cfg: Config, sh: Shared, n: nat, ok: bool): Shared {
    if sh.trimTick + n < TRIM_INTERVAL then sh.(trimTick := sh.trimTick + n)
    else if |sh.spool| < cfg.spoolCap || !ok then sh.(trimTick := 0)
    else
      var k := if |sh.spool| < TRIM_CHUNK then |sh.spool| else TRIM_CHUNK;
      Left(sh.(trimTick := 0, spool := sh.spool[k..]), sh.spool[..k], Trimmed)
  }

  function InsertOne(sh: Shared, b: Batch, ok: bool): Shared {
    if ok then sh.(spool := sh.spool + [b]) else Left(sh, [b], Refused)
  }

  // ----- The step of a thread -----

  predicate Enabled(fl: Flags, sh: Shared, t: Thread, c: Choice) {
    match c
    case Go(_) => t.Producer? && t.batch.Some?
    case Notice =>
      || (t.Worker? && t.at == Ready(false) && fl.quit)
      || (t.WriteLoop? && t.loop == Idle(Normal) && fl.quit)
      || (t.WriteLoop? && t.loop == Idle(Draining) && sh.spoolCh == [])
      || (t.WriteLoop? && t.loop == Idle(Lingering) && fl.workersDone)
      || (t.WriteLoop? && t.loop == Idle(Final) && sh.spoolCh == [])
    case Take =>
      || (t.Worker? && t.at.Ready? && sh.queue != [])
      || (t.WriteLoop? && t.loop.Idle? && sh.spoolCh != [])
    case Append => t.Worker? && t.at.Holding?
    case Flush(_) => t.Worker? && (t.at.Ready? || t.at.Holding?)
    case Leave(_) => t.Worker? && t.at == Ready(true) && sh.queue == []
    case Spool => t.Worker? && t.at.Spooling? && t.at.todo != []
    case Collect =>
      t.WriteLoop? && t.loop.Collecting? && |t.loop.buf| < SPOOL_WRITE_BATCH && sh.spoolCh != []
    case TrimOldest(_) => t.WriteLoop? && t.loop.Collecting? && (|t.loop.buf| >= SPOOL_WRITE_BATCH || sh.spoolCh == [])
    case Insert(_) =>
      t.WriteLoop? && (t.loop.Inserting? || (t.loop.OneByOne? && t.loop.todo != []))
  }

  function ProducerMove(cfg: Config, fl: Flags, sh: Shared, t: Thread, c: Choice): Moved
    requires t.Producer? && Enabled(fl, sh, t, c)
  {
    Enqueue(cfg, sh, t.batch.value, t.enq, c.connected)
  }

  function WorkerMove(cfg: Config, fl: Flags, sh: Shared, t: Thread, c: Choice): Moved
    requires t.Worker? && Enabled(fl, sh, t, c)
  {
    match c
    case Notice => Moved(sh, t.(at := Ready(true)))
    case Take => Moved(sh.(queue := sh.queue[1..]), t.(at := Holding(sh.queue[0], t.at.draining)))
    case Append => Moved(sh, Worker(Ready(t.at.draining), t.pending + [t.at.b]))
    case Flush(outcome) =>
      Flushed(cfg, sh, t.pending, outcome,
              if t.at.Ready? then ToReady(t.at.draining) else ToHolding(t.at.b, t.at.draining))
    case Leave(outcome) => Flushed(cfg, sh, t.pending, outcome, ToExit)
    case Spool =>
      var m := SpoolOne(sh, t.at.todo, t.at.put, t.at.after);
      Moved(m.sh, m.t.(pending := t.pending))
  }

  function WriteLoopMove(cfg: Config, fl: Flags, sh: Shared, t: Thread, c: Choice): Moved
    requires t.WriteLoop? && Enabled(fl, sh, t, c)
  {
    match c
    case Notice =>
      Moved(sh, WriteLoop(match t.loop.mode
                          case Normal => Idle(Draining)
                          case Draining => Idle(Lingering)
                          case Lingering => Idle(Final)
                          case Final => Done))
    case Take => Moved(sh.(spoolCh := sh.spoolCh[1..]), WriteLoop(Collecting([sh.spoolCh[0]], t.loop.mode)))
    case Collect =>
      Moved(sh.(spoolCh := sh.spoolCh[1..]), WriteLoop(Collecting(t.loop.buf + [sh.spoolCh[0]], t.loop.mode)))
    case TrimOldest(ok) =>
      Moved(Trim(cfg, sh, |t.loop.buf|, ok), WriteLoop(Inserting(t.loop.buf, t.loop.mode)))
    case Insert(ok) =>
      if t.loop.Inserting? then
        if ok then Moved(sh.(spool := sh.spool + t.loop.buf), WriteLoop(Idle(t.loop.mode)))
        else Moved(sh, WriteLoop(OneByOne(t.loop.buf, t.loop.mode)))
      else
        Moved(InsertOne(sh, t.loop.todo[0], ok),
              WriteLoop(if |t.loop.todo| > 1 then OneByOne(t.loop.todo[1..], t.loop.mode) else Idle(t.loop.mode)))
  }

  // ----- Conservation: what the batches weigh, place by place -----

  /**
   Batches are counted by weight: 1 for one of them and 0 for the others counts how
   often that one occurs, 1 for all of them counts how many there are.
   */
  type Weight = Batch -> nat

  function Occurs(s: seq<Batch>, x: Weight): nat {
    if s == [] then 0 else Occurs(s[..|s| - 1], x) + Is(s[|s| - 1], x)
  }

  function Is(b: Batch, x: Weight): nat {
    x(b)
  }

  function ResumeHolds(after: Resume, x: Weight): nat {
    if after.ToHolding? then Is(after.b, x) else 0
  }

  function WorkerHolds(at: WorkerAt, x: Weight): nat {
    match at
    case Holding(b, _) => Is(b, x)
    case Spooling(todo, _, after) => Occurs(todo, x) + ResumeHolds(after, x)
    case _ => 0
  }

  function LoopHolds(loop: LoopAt, x: Weight): nat {
    match loop
    case Collecting(buf, _) => Occurs(buf, x)
    case Inserting(buf, _) => Occurs(buf, x)
    case OneByOne(todo, _) => Occurs(todo, x)
    case _ => 0
  }

  /** What a thread has in its hands. */
  function Holds(t: Thread, x: Weight): nat {
    match t
    case Producer(b, _) => if b.Some? then Is(b.value, x) else 0
    case Worker(at, pending) => Occurs(pending, x) + WorkerHolds(at, x)
    case WriteLoop(loop) => LoopHolds(loop, x)
  }

  function Gone(log: seq<Exit>, x: Weight): nat {
    if log == [] then 0 else Gone(log[..|log| - 1], x) + Is(log[|log| - 1].b, x)
  }

  function Stored(sh: Shared, x: Weight): nat {
    Occurs(sh.queue, x) + Occurs(sh.spoolCh, x) + Occurs(sh.spool, x)
  }

  function Total(sh: Shared, x: Weight): nat {
    Stored(sh, x) + Gone(sh.log, x)
  }

  lemma {:induction false} Concat(s: seq<Batch>, t: seq<Batch>, x: Weight)
    ensures Occurs(s + t, x) == Occurs(s, x) + Occurs(t, x)
  {
    if t == [] {
      assert s + t == s;
    } else {
      Concat(s, t[..|t| - 1], x);
      assert (s + t)[..|s + t| - 1] == s + t[..|t| - 1];
    }
  }

  lemma One(b: Batch, x: Weight)
    ensures Occurs([b], x) == Is(b, x)
  {
    assert [b][..0] == [];
  }

  lemma Snoc(s: seq<Batch>, b: Batch, x: Weight)
    ensures Occurs(s + [b], x) == Occurs(s, x) + Is(b, x)
  {
    Concat(s, [b], x);
    One(b, x);
  }

  lemma HeadAndRest(s: seq<Batch>, x: Weight)
    ensures Occurs(s, x) == Occurs(First(s), x) + Occurs(Rest(s), x)
    ensures s != [] ==> Occurs(s, x) == Is(s[0], x) + Occurs(s[1..], x)
  {
    if s != [] {
      assert s == [s[0]] + s[1..];
      Concat([s[0]], s[1..], x);
      One(s[0], x);
    }
  }

  lemma CutAt(s: seq<Batch>, k: nat, x: Weight)
    requires k <= |s|
    ensures Occurs(s, x) == Occurs(s[..k], x) + Occurs(s[k..], x)
  {
    assert s == s[..k] + s[k..];
    Concat(s[..k], s[k..], x);
  }

  lemma {:induction false} GoneConcat(a: seq<Exit>, b: seq<Exit>, x: Weight)
    ensures Gone(a + b, x) == Gone(a, x) + Gone(b, x)
  {
    if b == [] {
      assert a + b == a;
    } else {
      GoneConcat(a, b[..|b| - 1], x);
      assert (a + b)[..|a + b| - 1] == a + b[..|b| - 1];
    }
  }

  lemma {:induction false} GoneExits(s: seq<Batch>, why: Why, x: Weight)
    ensures Gone(Exits(s, why), x) == Occurs(s, x)
  {
    if s != [] {
      GoneExits(s[..|s| - 1], why, x);
      var log := Exits(s, why);
      assert log[..|log| - 1] == Exits(s[..|s| - 1], why);
    }
  }

  lemma LeftAdds(sh: Shared, s: seq<Batch>, why: Why, x: Weight)
    ensures Total(Left(sh, s, why), x) == Total(sh, x) + Occurs(s, x)
    ensures Total(Lost(sh, s), x) == Total(sh, x) + Occurs(s, x)
  {
    GoneConcat(sh.log, Exits(s, why), x);
    GoneExits(s, why, x);
    GoneConcat(sh.log, Exits(s, Dropped), x);
    GoneExits(s, Dropped, x);
  }

  lemma PushConserves(sh: Shared, b: Batch, x: Weight)
    ensures Total(sh.(queue := sh.queue + [b]), x) == Total(sh, x) + Is(b, x)
    ensures Total(sh.(spoolCh := sh.spoolCh + [b]), x) == Total(sh, x) + Is(b, x)
    ensures Total(sh.(spool := sh.spool + [b]), x) == Total(sh, x) + Is(b, x)
  {
    Snoc(sh.queue, b, x);
    Snoc(sh.spoolCh, b, x);
    Snoc(sh.spool, b, x);
  }

  lemma PopConserves(sh: Shared, x: Weight)
    ensures Total(sh.(queue := Rest(sh.queue)), x) + Occurs(First(sh.queue), x) == Total(sh, x)
    ensures Total(sh.(spoolCh := Rest(sh.spoolCh)), x) + Occurs(First(sh.spoolCh), x) == Total(sh, x)
  {
    HeadAndRest(sh.queue, x);
    HeadAndRest(sh.spoolCh, x);
  }

  lemma PutConserves(sh: Shared, b: Batch, put: Put, x: Weight)
    ensures var (sh', next) := PutStep(sh, b, put);
            Total(sh', x) + (if next.Some? then Is(b, x) else 0) == Total(sh, x) + Is(b, x)
  {
    match put
    case Try => PushConserves(sh, b, x);
    case PopOldest =>
      PopConserves(sh, x);
      LeftAdds(sh.(spoolCh := Rest(sh.spoolCh)), First(sh.spoolCh), Dropped, x);
    case TryAgain =>
      PushConserves(sh, b, x);
      LeftAdds(sh, [b], Dropped, x);
      One(b, x);
  }

  lemma QueuedConserves(cfg: Config, sh: Shared, b: Batch, full: Moved, x: Weight)
    requires Total(full.sh, x) + Holds(full.t, x) == Total(sh, x) + Is(b, x)
    ensures var m := Queued(cfg, sh, b, full);
            Total(m.sh, x) + Holds(m.t, x) == Total(sh, x) + Is(b, x)
  {
    PushConserves(sh, b, x);
  }

  lemma EnqueueConserves(cfg: Config, sh: Shared, b: Batch, at: EnqueueAt, connected: bool, x: Weight)
    ensures var m := Enqueue(cfg, sh, b, at, connected);
            Total(m.sh, x) + Holds(m.t, x) == Total(sh, x) + Is(b, x)
  {
    match at
    case Route =>
    case TryQueue =>
      QueuedConserves(cfg, sh, b, Moved(sh, Producer(Some(b), if cfg.spoolOn then ToSpool(Try) else PopQueue)), x);
    case PopQueue =>
      PopConserves(sh, x);
      LeftAdds(sh.(queue := Rest(sh.queue)), First(sh.queue), Dropped, x);
    case TryQueueAgain =>
      LeftAdds(sh, [b], Dropped, x);
      One(b, x);
      QueuedConserves(cfg, sh, b, Moved(Lost(sh, [b]), Producer(None, Route)), x);
    case ToSpool(put) => PutConserves(sh, b, put, x);
  }

  lemma ResumedHolds(after: Resume, x: Weight)
    ensures Holds(Worker(Resumed(after), []), x) == ResumeHolds(after, x)
  {
  }

  lemma FlushConserves(cfg: Config, sh: Shared, pending: seq<Batch>, outcome: Outcome, after: Resume, x: Weight)
    ensures var m := Flushed(cfg, sh, pending, outcome, after);
            Total(m.sh, x) + Holds(m.t, x) == Total(sh, x) + Occurs(pending, x) + ResumeHolds(after, x)
  {
    ResumedHolds(after, x);
    match outcome
    case Empty => LeftAdds(sh, pending, Skipped, x);
    case Accepted => LeftAdds(sh, pending, Delivered, x);
    case Rejected => LeftAdds(sh, pending, Dropped, x);
  }

  lemma SpoolConserves(sh: Shared, todo: seq<Batch>, put: Put, after: Resume, x: Weight)
    requires todo != []
    ensures var m := SpoolOne(sh, todo, put, after);
            Total(m.sh, x) + Holds(m.t, x) == Total(sh, x) + Occurs(todo, x) + ResumeHolds(after, x)
  {
    PutConserves(sh, todo[0], put, x);
    AfterPutHolds(todo, PutStep(sh, todo[0], put).1, after, x);
  }

  lemma AfterPutHolds(todo: seq<Batch>, next: Option<Put>, after: Resume, x: Weight)
    requires todo != []
    ensures WorkerHolds(AfterPut(todo, next, after), x) + Is(todo[0], x)
            == Occurs(todo, x) + (if next.Some? then Is(todo[0], x) else 0) + ResumeHolds(after, x)
  {
    HeadAndRest(todo, x);
    NothingLeft(todo, x);
  }

  lemma NothingLeft(todo: seq<Batch>, x: Weight)
    requires |todo| > 0
    ensures |todo| == 1 ==> Occurs(todo[1..], x) == 0
  {
  }

  lemma TrimConserves(cfg: Config, sh: Shared, n: nat, ok: bool, x: Weight)
    ensures Total(Trim(cfg, sh, n, ok), x) == Total(sh, x)
  {
    var k := if |sh.spool| < TRIM_CHUNK then |sh.spool| else TRIM_CHUNK;
    CutAt(sh.spool, k, x);
    LeftAdds(sh.(trimTick := 0, spool := sh.spool[k..]), sh.spool[..k], Trimmed, x);
  }

  lemma TakeConserves(sh: Shared, x: Weight)
    ensures sh.queue != [] ==> Total(sh.(queue := sh.queue[1..]), x) + Is(sh.queue[0], x) == Total(sh, x)
    ensures sh.spoolCh != [] ==> Total(sh.(spoolCh := sh.spoolCh[1..]), x) + Is(sh.spoolCh[0], x) == Total(sh, x)
  {
    HeadAndRest(sh.queue, x);
    HeadAndRest(sh.spoolCh, x);
  }

  ghost predicate Conserves(sh: Shared, held: nat, m: Moved, x: Weight) {
    Total(m.sh, x) + Holds(m.t, x) == Total(sh, x) + held
  }

  lemma WorkerConserves(cfg: Config, fl: Flags, sh: Shared, t: Thread, c: Choice, x: Weight)
    requires t.Worker? && Enabled(fl, sh, t, c)
    ensures Conserves(sh, Holds(t, x), WorkerMove(cfg, fl, sh, t, c), x)
  {
    match c
    case Take => TakeConserves(sh, x);
    case Append => Snoc(t.pending, t.at.b, x);
    case Flush(outcome) =>
      FlushConserves(cfg, sh, t.pending, outcome,
                     if t.at.Ready? then ToReady(t.at.draining) else ToHolding(t.at.b, t.at.draining), x);
    case Leave(outcome) => FlushConserves(cfg, sh, t.pending, outcome, ToExit, x);
    case Spool => SpoolConserves(sh, t.at.todo, t.at.put, t.at.after, x);
    case _ =>
  }

  lemma WriteLoopConserves(cfg: Config, fl: Flags, sh: Shared, t: Thread, c: Choice, x: Weight)
    requires t.WriteLoop? && Enabled(fl, sh, t, c)
    ensures Conserves(sh, Holds(t, x), WriteLoopMove(cfg, fl, sh, t, c), x)
  {
    match c
    case Take => TakeConserves(sh, x); One(sh.spoolCh[0], x);
    case Collect => TakeConserves(sh, x); Snoc(t.loop.buf, sh.spoolCh[0], x);
    case TrimOldest(ok) => TrimConserves(cfg, sh, |t.loop.buf|, ok, x);
    case Insert(ok) => LoopInsertConserves(cfg, fl, sh, t, ok, x);
    case _ =>
  }

  lemma LoopInsertConserves(cfg: Config, fl: Flags, sh: Shared, t: Thread, ok: bool, x: Weight)
    requires t.WriteLoop? && Enabled(fl, sh, t, Insert(ok))
    ensures Conserves(sh, Holds(t, x), WriteLoopMove(cfg, fl, sh, t, Insert(ok)), x)
  {
    if t.loop.Inserting? {
      Concat(sh.spool, t.loop.buf, x);
    } else {
      HeadAndRest(t.loop.todo, x);
      NothingLeft(t.loop.todo, x);
    }
  }

  lemma ProducerConserves(cfg: Config, fl: Flags, sh: Shared, t: Thread, c: Choice, x: Weight)
    requires t.Producer? && Enabled(fl, sh, t, c)
    ensures Conserves(sh, Holds(t, x), ProducerMove(cfg, fl, sh, t, c), x)
  {
    EnqueueConserves(cfg, sh, t.batch.value, t.enq, c.connected, x);
  }

  // ----- The channel as a whole -----

  /**
   Thread 0 is the write loop of the cache; without a cache there is none to run.
   `fetched` are the batches replay has read so far, `vain` counts its verdicts on
   batches that then were not deleted: trimmed meanwhile, or storage refused.
   */
  datatype State = State(cfg: Config, stopped: bool, fl: Flags, sh: Shared, threads: seq<Thread>,
                         handed: seq<Batch>, fetched: set<Batch>, vain: nat)

  datatype Action =
    | Hand(i: nat, b: Batch)
    | Move(i: nat, c: Choice)
    | StopProducers
    | Close
    | Wait
    | Fetch(k: nat)
    | Replay(k: nat)
    | Poison(k: nat)
    | PoisonInVain(b: Batch)

  function Initial(cfg: Config, producers: nat, workers: nat): State {
    State(cfg, false, Flags(false, false), Shared([], [], [], 0, 0, []),
          [WriteLoop(if cfg.spoolOn then Idle(Normal) else Done)]
          + seq(producers, i => Producer(None, Route)) + seq(workers, i => Worker(Ready(false), [])), [], {}, 0)
  }

  predicate ProducersIdle(s: State) {
    forall i :: 0 <= i < |s.threads| && s.threads[i].Producer? ==> s.threads[i].batch.None?
  }

  predicate WorkersExited(s: State) {
    forall i :: 0 <= i < |s.threads| && s.threads[i].Worker? ==> s.threads[i].at.Exited?
  }

  /** With `orderly`, nothing is handed over after producers stopped, then Close, then workers, then Wait. */
  predicate CanStep(s: State, a: Action, orderly: bool) {
    match a
    case Hand(i, _) =>
      && i < |s.threads| && s.threads[i].Producer? && s.threads[i].batch.None?
      && (orderly ==> !s.stopped)
    case Move(i, c) => i < |s.threads| && Enabled(s.fl, s.sh, s.threads[i], c)
    case StopProducers => ProducersIdle(s)
    case Close => orderly ==> s.stopped
    case Wait => orderly ==> s.fl.quit && WorkersExited(s)
    case Fetch(k) => k < |s.sh.spool|
    case Replay(k) => k < |s.sh.spool| && s.sh.spool[k] in s.fetched
    case Poison(k) => k < |s.sh.spool| && s.sh.spool[k] in s.fetched
    case PoisonInVain(b) => b in s.fetched
  }

  function Put1(s: State, i: nat, m: Moved): State
    requires i < |s.threads|
  {
    s.(sh := m.sh, threads := s.threads[i := m.t])
  }

  function Deleted(sh: Shared, k: nat, why: Why): Shared
    requires k < |sh.spool|
  {
    Left(sh.(spool := sh.spool[..k] + sh.spool[k + 1..]), [sh.spool[k]], why)
  }

  /** A verdict of the drain loop: counted first, whatever becomes of the deletion. */
  function Judged(sh: Shared): Shared {
    sh.(droppedCount := sh.droppedCount + 1)
  }

  function Step(s: State, a: Action, orderly: bool): State
    requires CanStep(s, a, orderly)
  {
    match a
    case Hand(i, b) =>
      s.(handed := s.handed + [b], threads := s.threads[i := Producer(Some(b), Route)])
    case Move(i, c) =>
      if s.threads[i].Producer? then Put1(s, i, ProducerMove(s.cfg, s.fl, s.sh, s.threads[i], c))
      else if s.threads[i].Worker? then Put1(s, i, WorkerMove(s.cfg, s.fl, s.sh, s.threads[i], c))
      else Put1(s, i, WriteLoopMove(s.cfg, s.fl, s.sh, s.threads[i], c))
    case StopProducers => s.(stopped := true)
    case Close => s.(fl := s.fl.(quit := true))
    case Wait => s.(fl := s.fl.(workersDone := true))
    case Fetch(k) => s.(fetched := s.fetched + {s.sh.spool[k]})
    case Replay(k) => s.(sh := Deleted(s.sh, k, Replayed))
    case Poison(k) => s.(sh := Judged(Deleted(s.sh, k, Poisoned)))
    case PoisonInVain(_) => s.(sh := Judged(s.sh), vain := s.vain + 1)
  }

  /** What is in some thread's hands. */
  function InHands(threads: seq<Thread>, x: Weight): nat {
    if threads == [] then 0 else InHands(threads[..|threads| - 1], x) + Holds(threads[|threads| - 1], x)
  }

  lemma {:induction false} InHandsUpdate(threads: seq<Thread>, i: nat, t: Thread, x: Weight)
    requires i < |threads|
    ensures InHands(threads[i := t], x) + Holds(threads[i], x) == InHands(threads, x) + Holds(t, x)
  {
    var n := |threads| - 1;
    if i == n {
      assert threads[i := t][..n] == threads[..n];
    } else {
      InHandsUpdate(threads[..n], i, t, x);
      assert threads[i := t][..n] == threads[..n][i := t];
    }
  }

  ghost predicate Accounted(s: State, x: Weight) {
    Occurs(s.handed, x) == Total(s.sh, x) + InHands(s.threads, x)
  }

  lemma Put1Keeps(s: State, i: nat, m: Moved, x: Weight)
    requires i < |s.threads| && Accounted(s, x) && Conserves(s.sh, Holds(s.threads[i], x), m, x)
    ensures Accounted(Put1(s, i, m), x)
  {
    InHandsUpdate(s.threads, i, m.t, x);
  }

  lemma HandKeeps(s: State, i: nat, b: Batch, orderly: bool, x: Weight)
    requires CanStep(s, Hand(i, b), orderly) && Accounted(s, x)
    ensures Accounted(Step(s, Hand(i, b), orderly), x)
  {
    Snoc(s.handed, b, x);
    InHandsUpdate(s.threads, i, Producer(Some(b), Route), x);
  }

  lemma DeleteConserves(sh: Shared, k: nat, why: Why, x: Weight)
    requires k < |sh.spool|
    ensures Total(Deleted(sh, k, why), x) == Total(sh, x)
  {
    var b, rest := sh.spool[k], sh.spool[k + 1..];
    CutAt(sh.spool, k, x);
    HeadAndRest(sh.spool[k..], x);
    assert sh.spool[k..][1..] == rest;
    Concat(sh.spool[..k], rest, x);
    LeftAdds(sh.(spool := sh.spool[..k] + rest), [b], why, x);
    One(b, x);
  }

  lemma MoveKeeps(s: State, i: nat, c: Choice, x: Weight)
    requires CanStep(s, Move(i, c), false) && Accounted(s, x)
    ensures Accounted(Step(s, Move(i, c), false), x)
  {
    var t := s.threads[i];
    if t.Producer? {
      ProducerConserves(s.cfg, s.fl, s.sh, t, c, x);
      Put1Keeps(s, i, ProducerMove(s.cfg, s.fl, s.sh, t, c), x);
    } else if t.Worker? {
      WorkerConserves(s.cfg, s.fl, s.sh, t, c, x);
      Put1Keeps(s, i, WorkerMove(s.cfg, s.fl, s.sh, t, c), x);
    } else {
      WriteLoopConserves(s.cfg, s.fl, s.sh, t, c, x);
      Put1Keeps(s, i, WriteLoopMove(s.cfg, s.fl, s.sh, t, c), x);
    }
  }
}
