/**
 What holds over every run of a push channel: each batch stays accounted for, the
 drop counter is exact for what it counts, and the documented shutdown order
 leaves no batch in memory.
 */
module OutboxRuns {

  import opened Outbox

  function Run(s: State, actions: seq<Action>, orderly: bool): State
    decreases |actions|
  {
    if actions == [] then s
    else if CanStep(s, actions[0], orderly) then Run(Step(s, actions[0], orderly), actions[1..], orderly)
    else Run(s, actions[1..], orderly)
  }

  // ----- Every batch is accounted for -----

  lemma StepAccounts(s: State, a: Action, orderly: bool, x: Weight)
    requires CanStep(s, a, orderly) && Accounted(s, x)
    ensures Accounted(Step(s, a, orderly), x)
  {
    match a
    case Hand(i, b) => HandKeeps(s, i, b, orderly, x);
    case Move(i, c) => MoveKeeps(s, i, c, x);
    case Replay(k) => DeleteConserves(s.sh, k, Replayed, x);
    case Poison(k) => DeleteConserves(s.sh, k, Poisoned, x);
    case _ =>
  }

  lemma {:induction false} InHandsOfIdle(threads: seq<Thread>, x: Weight)
    requires forall i :: 0 <= i < |threads| ==> Holds(threads[i], x) == 0
    ensures InHands(threads, x) == 0
  {
    if threads != [] {
      InHandsOfIdle(threads[..|threads| - 1], x);
    }
  }

  lemma {:induction false} RunAccounts(s: State, actions: seq<Action>, orderly: bool, x: Weight)
    requires Accounted(s, x)
    ensures Accounted(Run(s, actions, orderly), x)
    decreases |actions|
  {
    if actions != [] {
      if CanStep(s, actions[0], orderly) {
        StepAccounts(s, actions[0], orderly, x);
        RunAccounts(Step(s, actions[0], orderly), actions[1..], orderly, x);
      } else {
        RunAccounts(s, actions[1..], orderly, x);
      }
    }
  }

  /**
   No silent loss, in any interleaving: as often as a batch was handed to Enqueue,
   so often it is in the queue, in a goroutine's hands, in the cache or its
   buffer, or in the record of what left and why.
   */
  lemma NothingLost(cfg: Config, producers: nat, workers: nat, actions: seq<Action>, x: Weight)
    ensures var s := Run(Initial(cfg, producers, workers), actions, false);
            Occurs(s.handed, x) == Occurs(s.sh.queue, x) + Occurs(s.sh.spoolCh, x) + Occurs(s.sh.spool, x)
                                   + InHands(s.threads, x) + Gone(s.sh.log, x)
  {
    InHandsOfIdle(Initial(cfg, producers, workers).threads, x);
    RunAccounts(Initial(cfg, producers, workers), actions, false, x);
  }

  // ----- The drop counter -----

  /** What the counter is meant to count. */
  predicate CountsAsDrop(why: Why) {
    why == Dropped || why == Poisoned
  }

  function Drops(log: seq<Exit>): nat {
    if log == [] then 0 else Drops(log[..|log| - 1]) + if CountsAsDrop(log[|log| - 1].why) then 1 else 0
  }

  ghost predicate Counted(sh: Shared, vain: nat) {
    sh.droppedCount == Drops(sh.log) + vain
  }

  lemma {:induction false} DropsConcat(a: seq<Exit>, b: seq<Exit>)
    ensures Drops(a + b) == Drops(a) + Drops(b)
  {
    if b == [] {
      assert a + b == a;
    } else {
      DropsConcat(a, b[..|b| - 1]);
      assert (a + b)[..|a + b| - 1] == a + b[..|b| - 1];
    }
  }

  lemma {:induction false} DropsOf(s: seq<Batch>, why: Why)
    ensures Drops(Exits(s, why)) == if CountsAsDrop(why) then |s| else 0
  {
    if s != [] {
      DropsOf(s[..|s| - 1], why);
      var log := Exits(s, why);
      assert log[..|log| - 1] == Exits(s[..|s| - 1], why);
    }
  }

  lemma LostCounted(sh: Shared, s: seq<Batch>, vain: nat)
    requires Counted(sh, vain)
    ensures Counted(Lost(sh, s), vain)
  {
    DropsConcat(sh.log, Exits(s, Dropped));
    DropsOf(s, Dropped);
  }

  lemma LeftCounted(sh: Shared, s: seq<Batch>, why: Why, vain: nat)
    requires Counted(sh, vain) && !CountsAsDrop(why)
    ensures Counted(Left(sh, s, why), vain)
  {
    DropsConcat(sh.log, Exits(s, why));
    DropsOf(s, why);
  }

  lemma PutCounted(sh: Shared, b: Batch, put: Put, vain: nat)
    requires Counted(sh, vain)
    ensures Counted(PutStep(sh, b, put).0, vain)
  {
    LostCounted(sh.(spoolCh := Rest(sh.spoolCh)), First(sh.spoolCh), vain);
    LostCounted(sh, [b], vain);
  }

  lemma EnqueueCounted(cfg: Config, sh: Shared, b: Batch, at: EnqueueAt, connected: bool, vain: nat)
    requires Counted(sh, vain)
    ensures Counted(Enqueue(cfg, sh, b, at, connected).sh, vain)
  {
    match at
    case PopQueue => LostCounted(sh.(queue := Rest(sh.queue)), First(sh.queue), vain);
    case TryQueueAgain => LostCounted(sh, [b], vain);
    case ToSpool(put) => PutCounted(sh, b, put, vain);
    case _ =>
  }

  lemma FlushCounted(cfg: Config, sh: Shared, pending: seq<Batch>, outcome: Outcome, after: Resume, vain: nat)
    requires Counted(sh, vain)
    ensures Counted(Flushed(cfg, sh, pending, outcome, after).sh, vain)
  {
    LeftCounted(sh, pending, Skipped, vain);
    LeftCounted(sh, pending, Delivered, vain);
    LostCounted(sh, pending, vain);
  }

  lemma WorkerCounted(cfg: Config, fl: Flags, sh: Shared, t: Thread, c: Choice, vain: nat)
    requires t.Worker? && Enabled(fl, sh, t, c) && Counted(sh, vain)
    ensures Counted(WorkerMove(cfg, fl, sh, t, c).sh, vain)
  {
    match c
    case Flush(outcome) =>
      FlushCounted(cfg, sh, t.pending, outcome,
                   if t.at.Ready? then ToReady(t.at.draining) else ToHolding(t.at.b, t.at.draining), vain);
    case Leave(outcome) => FlushCounted(cfg, sh, t.pending, outcome, ToExit, vain);
    case Spool => PutCounted(sh, t.at.todo[0], t.at.put, vain);
    case _ =>
  }

  lemma WriteLoopCounted(cfg: Config, fl: Flags, sh: Shared, t: Thread, c: Choice, vain: nat)
    requires t.WriteLoop? && Enabled(fl, sh, t, c) && Counted(sh, vain)
    ensures Counted(WriteLoopMove(cfg, fl, sh, t, c).sh, vain)
  {
    match c
    case TrimOldest(ok) =>
      var k := if |sh.spool| < TRIM_CHUNK then |sh.spool| else TRIM_CHUNK;
      LeftCounted(sh.(trimTick := 0, spool := sh.spool[k..]), sh.spool[..k], Trimmed, vain);
    case Insert(ok) =>
      if t.loop.OneByOne? {
        LeftCounted(sh, [t.loop.todo[0]], Refused, vain);
      }
    case _ =>
  }

  lemma DeleteCounted(sh: Shared, k: nat, vain: nat)
    requires k < |sh.spool| && Counted(sh, vain)
    ensures Counted(Deleted(sh, k, Replayed), vain)
    ensures Counted(Judged(Deleted(sh, k, Poisoned)), vain)
  {
    LeftCounted(sh.(spool := sh.spool[..k] + sh.spool[k + 1..]), [sh.spool[k]], Replayed, vain);
    LostCounted(sh.(spool := sh.spool[..k] + sh.spool[k + 1..]), [sh.spool[k]], vain);
    DropsConcat(sh.log, Exits([sh.spool[k]], Poisoned));
    DropsOf([sh.spool[k]], Poisoned);
  }

  lemma StepCounted(s: State, a: Action, orderly: bool)
    requires CanStep(s, a, orderly) && Counted(s.sh, s.vain)
    ensures var t := Step(s, a, orderly); Counted(t.sh, t.vain)
  {
    match a
    case Move(i, c) =>
      var t := s.threads[i];
      if t.Producer? {
        EnqueueCounted(s.cfg, s.sh, t.batch.value, t.enq, c.connected, s.vain);
      } else if t.Worker? {
        WorkerCounted(s.cfg, s.fl, s.sh, t, c, s.vain);
      } else {
        WriteLoopCounted(s.cfg, s.fl, s.sh, t, c, s.vain);
      }
    case Replay(k) => DeleteCounted(s.sh, k, s.vain);
    case Poison(k) => DeleteCounted(s.sh, k, s.vain);
    case _ =>
  }

  lemma {:induction false} RunCounted(s: State, actions: seq<Action>, orderly: bool)
    requires Counted(s.sh, s.vain)
    ensures var t := Run(s, actions, orderly); Counted(t.sh, t.vain)
    decreases |actions|
  {
    if actions != [] {
      if CanStep(s, actions[0], orderly) {
        StepCounted(s, actions[0], orderly);
        RunCounted(Step(s, actions[0], orderly), actions[1..], orderly);
      } else {
        RunCounted(s, actions[1..], orderly);
      }
    }
  }

  lemma InitialCounted(cfg: Config, producers: nat, workers: nat)
    ensures var s := Initial(cfg, producers, workers); Counted(s.sh, s.vain)
  {
  }

  /**
   In any interleaving droppedCount is the number of batches that were pushed out
   of a full buffer, refused downstream without a cache, or deleted from the cache
   as poison, plus the verdicts that deleted nothing.  Batches trimmed, refused by
   storage or forgotten with an empty payload are not in it.
   */
  lemma DropCountExact(cfg: Config, producers: nat, workers: nat, actions: seq<Action>, orderly: bool)
    ensures var s := Run(Initial(cfg, producers, workers), actions, orderly);
            s.sh.droppedCount == Drops(s.sh.log) + s.vain
  {
    var init := Initial(cfg, producers, workers);
    InitialCounted(cfg, producers, workers);
    RunCounted(init, actions, orderly);
    var s := Run(init, actions, orderly);
    assert Counted(s.sh, s.vain);
  }

  // ----- With a cache, and within its limits, nothing is dropped or trimmed -----

  const ALL: Weight := _ => 1

  lemma {:induction false} OccursOfAll(s: seq<Batch>)
    ensures Occurs(s, ALL) == |s|
  {
    if s != [] {
      OccursOfAll(s[..|s| - 1]);
    }
  }

  lemma {:induction false} InHandsAtLeast(threads: seq<Thread>, i: nat, x: Weight)
    requires i < |threads|
    ensures Holds(threads[i], x) <= InHands(threads, x)
  {
    if i < |threads| - 1 {
      InHandsAtLeast(threads[..|threads| - 1], i, x);
    }
  }

  predicate Without(log: seq<Exit>, why: Why) {
    forall i :: 0 <= i < |log| ==> log[i].why != why
  }

  lemma {:induction false} ExitsWithout(s: seq<Batch>, why: Why, other: Why)
    requires why != other
    ensures Without(Exits(s, why), other)
  {
    if s != [] {
      ExitsWithout(s[..|s| - 1], why, other);
    }
  }

  /** Nobody has found the buffer of the cache full. */
  predicate CalmThread(t: Thread) {
    match t
    case Producer(_, enq) => enq.Route? || enq.TryQueue? || enq == ToSpool(Try)
    case Worker(at, _) => at.Spooling? ==> at.put == Try
    case WriteLoop(_) => true
  }

  ghost predicate Calm(s: State) {
    && s.cfg.spoolOn && Without(s.sh.log, Dropped)
    && forall i :: 0 <= i < |s.threads| ==> CalmThread(s.threads[i])
  }

  lemma FlushStaysCalm(cfg: Config, sh: Shared, pending: seq<Batch>, outcome: Outcome, after: Resume)
    requires cfg.spoolOn && Without(sh.log, Dropped)
    ensures var m := Flushed(cfg, sh, pending, outcome, after); Without(m.sh.log, Dropped) && CalmThread(m.t)
  {
    ExitsWithout(pending, Skipped, Dropped);
    ExitsWithout(pending, Delivered, Dropped);
  }

  lemma ProducerStaysCalm(cfg: Config, fl: Flags, sh: Shared, t: Thread, c: Choice)
    requires t.Producer? && Enabled(fl, sh, t, c) && CalmThread(t) && cfg.spoolOn
    requires Without(sh.log, Dropped) && |sh.spoolCh| < SPOOL_CH_SIZE
    ensures var m := ProducerMove(cfg, fl, sh, t, c); Without(m.sh.log, Dropped) && CalmThread(m.t)
  {
  }

  lemma WorkerStaysCalm(cfg: Config, fl: Flags, sh: Shared, t: Thread, c: Choice)
    requires t.Worker? && Enabled(fl, sh, t, c) && CalmThread(t) && cfg.spoolOn && Without(sh.log, Dropped)
    requires t.at.Spooling? && t.at.todo != [] ==> |sh.spoolCh| < SPOOL_CH_SIZE
    ensures var m := WorkerMove(cfg, fl, sh, t, c); Without(m.sh.log, Dropped) && CalmThread(m.t)
  {
    match c
    case Flush(outcome) =>
      FlushStaysCalm(cfg, sh, t.pending, outcome,
                     if t.at.Ready? then ToReady(t.at.draining) else ToHolding(t.at.b, t.at.draining));
    case Leave(outcome) => FlushStaysCalm(cfg, sh, t.pending, outcome, ToExit);
    case _ =>
  }

  lemma TrimsOnlyAtCapacity(cfg: Config, sh: Shared, n: nat, ok: bool)
    ensures var t := Trim(cfg, sh, n, ok); var k := |sh.spool| - |t.spool|;
            && 0 <= k <= TRIM_CHUNK && t.spool == sh.spool[k..] && t.log == sh.log + Exits(sh.spool[..k], Trimmed)
            && (k > 0 ==> |sh.spool| >= cfg.spoolCap && sh.trimTick + n >= TRIM_INTERVAL)
            && (ok && |sh.spool| >= cfg.spoolCap && sh.trimTick + n >= TRIM_INTERVAL ==>
                  k == if |sh.spool| < TRIM_CHUNK then |sh.spool| else TRIM_CHUNK)
            && t.trimTick == (if sh.trimTick + n < TRIM_INTERVAL then sh.trimTick + n else 0)
            && t.queue == sh.queue && t.spoolCh == sh.spoolCh && t.droppedCount == sh.droppedCount
  {
    assert sh.spool[..0] == [] && sh.log + [] == sh.log;
  }

  lemma WriteLoopStaysCalm(cfg: Config, fl: Flags, sh: Shared, t: Thread, c: Choice)
    requires t.WriteLoop? && Enabled(fl, sh, t, c) && Without(sh.log, Dropped)
    ensures var m := WriteLoopMove(cfg, fl, sh, t, c); Without(m.sh.log, Dropped) && CalmThread(m.t)
  {
    match c
    case TrimOldest(ok) =>
      TrimsOnlyAtCapacity(cfg, sh, |t.loop.buf|, ok);
      ExitsWithout(sh.spool[..|sh.spool| - |Trim(cfg, sh, |t.loop.buf|, ok).spool|], Trimmed, Dropped);
    case _ =>
  }

  /** As long as no more has been handed over than the buffer takes, a batch in hand finds room. */
  lemma RoomForOne(s: State, i: nat)
    requires Accounted(s, ALL) && i < |s.threads| && |s.handed| <= SPOOL_CH_SIZE
    requires Holds(s.threads[i], ALL) > 0
    ensures |s.sh.spoolCh| < SPOOL_CH_SIZE
  {
    OccursOfAll(s.handed);
    OccursOfAll(s.sh.spoolCh);
    InHandsAtLeast(s.threads, i, ALL);
  }

  lemma MoveStaysCalm(s: State, i: nat, c: Choice, orderly: bool)
    requires Calm(s) && Accounted(s, ALL) && |s.handed| <= SPOOL_CH_SIZE && CanStep(s, Move(i, c), orderly)
    ensures Calm(Step(s, Move(i, c), orderly))
  {
    var t := s.threads[i];
    if t.Producer? {
      RoomForOne(s, i);
      ProducerStaysCalm(s.cfg, s.fl, s.sh, t, c);
    } else if t.Worker? {
      if t.at.Spooling? && t.at.todo != [] {
        OccursOfAll(t.at.todo);
        RoomForOne(s, i);
      }
      WorkerStaysCalm(s.cfg, s.fl, s.sh, t, c);
    } else {
      WriteLoopStaysCalm(s.cfg, s.fl, s.sh, t, c);
    }
  }

  lemma StepStaysCalm(s: State, a: Action, orderly: bool)
    requires Calm(s) && Accounted(s, ALL) && |s.handed| <= SPOOL_CH_SIZE && CanStep(s, a, orderly)
    ensures Calm(Step(s, a, orderly))
  {
    if a.Move? {
      MoveStaysCalm(s, a.i, a.c, orderly);
    }
  }

  lemma {:induction false} HandedGrows(s: State, actions: seq<Action>, orderly: bool)
    ensures s.handed <= Run(s, actions, orderly).handed && Run(s, actions, orderly).cfg == s.cfg
    decreases |actions|
  {
    if actions != [] {
      HandedGrows(if CanStep(s, actions[0], orderly) then Step(s, actions[0], orderly) else s, actions[1..], orderly);
    }
  }

  lemma {:induction false} RunStaysCalm(s: State, actions: seq<Action>, orderly: bool)
    requires Calm(s) && Accounted(s, ALL) && |Run(s, actions, orderly).handed| <= SPOOL_CH_SIZE
    ensures Calm(Run(s, actions, orderly))
    decreases |actions|
  {
    if actions != [] {
      HandedGrows(s, actions, orderly);
      if CanStep(s, actions[0], orderly) {
        StepAccounts(s, actions[0], orderly, ALL);
        StepStaysCalm(s, actions[0], orderly);
        RunStaysCalm(Step(s, actions[0], orderly), actions[1..], orderly);
      } else {
        RunStaysCalm(s, actions[1..], orderly);
      }
    }
  }

  /**
   With a cache, as long as no more batches have been handed over than its buffer
   takes, none is dropped in any interleaving, whatever the downstream refuses.
   */
  lemma CacheDropsNothing(cfg: Config, producers: nat, workers: nat, actions: seq<Action>, orderly: bool)
    requires cfg.spoolOn && |Run(Initial(cfg, producers, workers), actions, orderly).handed| <= SPOOL_CH_SIZE
    ensures Without(Run(Initial(cfg, producers, workers), actions, orderly).sh.log, Dropped)
  {
    var init := Initial(cfg, producers, workers);
    InHandsOfIdle(init.threads, ALL);
    RunStaysCalm(init, actions, orderly);
  }

  ghost predicate Untrimmed(s: State) {
    Without(s.sh.log, Trimmed)
  }

  lemma PutTrimsNothing(sh: Shared, b: Batch, put: Put)
    requires Without(sh.log, Trimmed)
    ensures Without(PutStep(sh, b, put).0.log, Trimmed)
  {
    ExitsWithout(First(sh.spoolCh), Dropped, Trimmed);
    ExitsWithout([b], Dropped, Trimmed);
  }

  lemma FlushTrimsNothing(cfg: Config, sh: Shared, pending: seq<Batch>, outcome: Outcome, after: Resume)
    requires Without(sh.log, Trimmed)
    ensures Without(Flushed(cfg, sh, pending, outcome, after).sh.log, Trimmed)
  {
    ExitsWithout(pending, Skipped, Trimmed);
    ExitsWithout(pending, Delivered, Trimmed);
    ExitsWithout(pending, Dropped, Trimmed);
  }

  lemma MoveTrimsNothing(s: State, i: nat, c: Choice, orderly: bool)
    requires Untrimmed(s) && |s.sh.spool| < s.cfg.spoolCap && CanStep(s, Move(i, c), orderly)
    ensures Untrimmed(Step(s, Move(i, c), orderly))
  {
    var t := s.threads[i];
    match c
    case Go(connected) =>
      ExitsWithout(First(s.sh.queue), Dropped, Trimmed);
      ExitsWithout([t.batch.value], Dropped, Trimmed);
      if t.enq.ToSpool? {
        PutTrimsNothing(s.sh, t.batch.value, t.enq.put);
      }
    case Flush(outcome) =>
      FlushTrimsNothing(s.cfg, s.sh, t.pending, outcome,
                        if t.at.Ready? then ToReady(t.at.draining) else ToHolding(t.at.b, t.at.draining));
    case Leave(outcome) => FlushTrimsNothing(s.cfg, s.sh, t.pending, outcome, ToExit);
    case Spool => PutTrimsNothing(s.sh, t.at.todo[0], t.at.put);
    case TrimOldest(ok) => TrimsOnlyAtCapacity(s.cfg, s.sh, |t.loop.buf|, ok);
    case _ =>
  }

  lemma StepTrimsNothing(s: State, a: Action, orderly: bool)
    requires Untrimmed(s) && Accounted(s, ALL) && |s.handed| < s.cfg.spoolCap && CanStep(s, a, orderly)
    ensures Untrimmed(Step(s, a, orderly))
  {
    OccursOfAll(s.handed);
    OccursOfAll(s.sh.spool);
    if a.Move? {
      MoveTrimsNothing(s, a.i, a.c, orderly);
    }
  }

  lemma {:induction false} RunTrimsNothing(s: State, actions: seq<Action>, orderly: bool)
    requires Untrimmed(s) && Accounted(s, ALL) && |Run(s, actions, orderly).handed| < s.cfg.spoolCap
    ensures Untrimmed(Run(s, actions, orderly))
    decreases |actions|
  {
    if actions != [] {
      HandedGrows(s, actions, orderly);
      if CanStep(s, actions[0], orderly) {
        StepAccounts(s, actions[0], orderly, ALL);
        StepTrimsNothing(s, actions[0], orderly);
        RunTrimsNothing(Step(s, actions[0], orderly), actions[1..], orderly);
      } else {
        RunTrimsNothing(s, actions[1..], orderly);
      }
    }
  }

  /** As long as fewer batches have been handed over than the cache may hold, none is trimmed from it. */
  lemma NothingTrimmedBelowCapacity(cfg: Config, producers: nat, workers: nat, actions: seq<Action>, orderly: bool)
    requires |Run(Initial(cfg, producers, workers), actions, orderly).handed| < cfg.spoolCap
    ensures Without(Run(Initial(cfg, producers, workers), actions, orderly).sh.log, Trimmed)
  {
    var init := Initial(cfg, producers, workers);
    InHandsOfIdle(init.threads, ALL);
    RunTrimsNothing(init, actions, orderly);
  }

  /**
   What the answer of the downstream decides about a window.  A refused window leaves
   nothing behind when there is a cache: its batches stay in the worker's hands, on
   their way into the cache, all of them and in order.
   */
  lemma FlushDecides(cfg: Config, fl: Flags, sh: Shared, t: Thread, c: Choice)
    requires t.Worker? && Enabled(fl, sh, t, c) && (c.Flush? || c.Leave?)
    ensures var m := WorkerMove(cfg, fl, sh, t, c);
            && m.sh.queue == sh.queue && m.sh.spoolCh == sh.spoolCh && m.sh.spool == sh.spool
            && m.t.Worker? && m.t.pending == []
            && (c.outcome.Accepted? ==> m.sh.log == sh.log + Exits(t.pending, Delivered) && m.sh.droppedCount == sh.droppedCount)
            && (c.outcome.Empty? ==> m.sh.log == sh.log + Exits(t.pending, Skipped) && m.sh.droppedCount == sh.droppedCount)
            && (c.outcome.Rejected? && cfg.spoolOn ==>
                  && m.sh == sh
                  && (t.pending != [] ==> m.t.at.Spooling? && m.t.at.todo == t.pending && m.t.at.put == Try))
            && (c.outcome.Rejected? && !cfg.spoolOn ==>
                  m.sh.log == sh.log + Exits(t.pending, Dropped) && m.sh.droppedCount == sh.droppedCount + |t.pending|)
  {
  }

  // ----- Shutdown -----

  predicate Leaving(at: WorkerAt) {
    at.Exited? || (at.Spooling? && at.after.ToExit?)
  }

  predicate Draining(at: WorkerAt) {
    match at
    case Ready(draining) => draining
    case Holding(_, draining) => draining
    case Spooling(_, _, after) => after.ToExit? || after.draining
    case Exited => true
  }

  ghost predicate ThreadOk(cfg: Config, stopped: bool, fl: Flags, sh: Shared, t: Thread) {
    match t
    case Producer(b, enq) => (stopped ==> b.None?) && (enq.ToSpool? ==> cfg.spoolOn)
    case Worker(at, pending) =>
      && (Draining(at) ==> fl.quit)
      && (Leaving(at) ==> sh.queue == [])
      && (at.Spooling? ==> cfg.spoolOn)
      && (at.Spooling? || at.Exited? ==> pending == [])
    case WriteLoop(loop) =>
      && (!cfg.spoolOn ==> loop.Done?)
      && (loop.Done? ==> sh.spoolCh == [] && (cfg.spoolOn ==> fl.workersDone))
      && (!loop.Done? && loop.mode == Final ==> fl.workersDone)
  }

  ghost predicate ThreadsOk(s: State, sh: Shared, threads: seq<Thread>) {
    forall i :: 0 <= i < |threads| ==> ThreadOk(s.cfg, s.stopped, s.fl, sh, threads[i])
  }

  /** Kept by every run in the documented shutdown order. */
  ghost predicate InOrder(s: State) {
    && (s.fl.quit ==> s.stopped)
    && (s.fl.workersDone ==> s.fl.quit && WorkersExited(s))
    && (!s.cfg.spoolOn ==> s.sh.spoolCh == [])
    && |s.threads| > 0 && s.threads[0].WriteLoop?
    && ThreadsOk(s, s.sh, s.threads)
  }

  lemma WorkerStaysOk(s: State, t: Thread, c: Choice)
    requires t.Worker? && Enabled(s.fl, s.sh, t, c) && ThreadOk(s.cfg, s.stopped, s.fl, s.sh, t)
    ensures var m := WorkerMove(s.cfg, s.fl, s.sh, t, c);
            m.t.Worker? && ThreadOk(s.cfg, s.stopped, s.fl, m.sh, m.t)
  {
  }

  lemma OthersStayOk(s: State, sh: Shared)
    requires InOrder(s)
    requires s.fl.quit && s.sh.queue == [] ==> sh.queue == []
    requires (!s.cfg.spoolOn || s.fl.workersDone) && s.sh.spoolCh == [] ==> sh.spoolCh == []
    ensures ThreadsOk(s, sh, s.threads)
  {
    forall i | 0 <= i < |s.threads|
      ensures ThreadOk(s.cfg, s.stopped, s.fl, sh, s.threads[i])
    {
      assert ThreadOk(s.cfg, s.stopped, s.fl, s.sh, s.threads[i]);
    }
  }

  lemma WorkerInOrder(s: State, i: nat, c: Choice)
    requires InOrder(s) && CanStep(s, Move(i, c), true) && s.threads[i].Worker?
    ensures InOrder(Step(s, Move(i, c), true))
  {
    var t := s.threads[i];
    assert ThreadOk(s.cfg, s.stopped, s.fl, s.sh, t);
    WorkerStaysOk(s, t, c);
    var m := WorkerMove(s.cfg, s.fl, s.sh, t, c);
    OthersStayOk(s, m.sh);
  }

  lemma WriteLoopInOrder(s: State, i: nat, c: Choice)
    requires InOrder(s) && CanStep(s, Move(i, c), true) && s.threads[i].WriteLoop?
    ensures InOrder(Step(s, Move(i, c), true))
  {
    var t := s.threads[i];
    assert ThreadOk(s.cfg, s.stopped, s.fl, s.sh, t);
    var m := WriteLoopMove(s.cfg, s.fl, s.sh, t, c);
    OthersStayOk(s, m.sh);
  }

  lemma HandInOrder(s: State, i: nat, b: Batch)
    requires InOrder(s) && CanStep(s, Hand(i, b), true)
    ensures InOrder(Step(s, Hand(i, b), true))
  {
  }

  lemma ControlInOrder(s: State, a: Action)
    requires InOrder(s) && CanStep(s, a, true) && (a.StopProducers? || a.Close? || a.Wait? || a.Fetch? || a.PoisonInVain?)
    ensures InOrder(Step(s, a, true))
  {
    var t := Step(s, a, true);
    forall i | 0 <= i < |t.threads|
      ensures ThreadOk(t.cfg, t.stopped, t.fl, t.sh, t.threads[i])
    {
      assert ThreadOk(s.cfg, s.stopped, s.fl, s.sh, s.threads[i]);
    }
  }

  lemma StepInOrder(s: State, a: Action)
    requires InOrder(s) && CanStep(s, a, true)
    ensures InOrder(Step(s, a, true))
  {
    match a
    case Hand(i, b) => HandInOrder(s, i, b);
    case Move(i, c) =>
      if s.threads[i].Worker? {
        WorkerInOrder(s, i, c);
      } else if s.threads[i].WriteLoop? {
        WriteLoopInOrder(s, i, c);
      }
    case Replay(k) => OthersStayOk(s, Deleted(s.sh, k, Replayed));
    case Poison(k) => OthersStayOk(s, Judged(Deleted(s.sh, k, Poisoned)));
    case _ => ControlInOrder(s, a);
  }

  lemma {:induction false} RunInOrder(s: State, actions: seq<Action>)
    requires InOrder(s)
    ensures InOrder(Run(s, actions, true))
    decreases |actions|
  {
    if actions != [] {
      if CanStep(s, actions[0], true) {
        StepInOrder(s, actions[0]);
        RunInOrder(Step(s, actions[0], true), actions[1..]);
      } else {
        RunInOrder(s, actions[1..]);
      }
    }
  }

  /** Wait has returned: the write loop, if there is one, is done. */
  ghost predicate WaitReturned(s: State) {
    s.fl.workersDone && forall i :: 0 <= i < |s.threads| && s.threads[i].WriteLoop? ==> s.threads[i].loop.Done?
  }

  lemma NothingInHands(s: State, x: Weight)
    requires InOrder(s) && WaitReturned(s)
    ensures InHands(s.threads, x) == 0 && s.sh.spoolCh == []
  {
    forall i | 0 <= i < |s.threads|
      ensures Holds(s.threads[i], x) == 0
    {
      assert ThreadOk(s.cfg, s.stopped, s.fl, s.sh, s.threads[i]);
    }
    InHandsOfIdle(s.threads, x);
    assert ThreadOk(s.cfg, s.stopped, s.fl, s.sh, s.threads[0]);
  }

  /**
   When producers have stopped, then Close, then the workers have left, then Wait
   has returned, no batch is in memory: each is in the cache or accounted for.
   With at least one worker the queue is empty too.
   */
  lemma OrderlyShutdownKeepsAll(cfg: Config, producers: nat, workers: nat, actions: seq<Action>, x: Weight)
    requires workers > 0 && WaitReturned(Run(Initial(cfg, producers, workers), actions, true))
    ensures var s := Run(Initial(cfg, producers, workers), actions, true);
            && s.sh.queue == [] && s.sh.spoolCh == [] && InHands(s.threads, x) == 0
            && Occurs(s.handed, x) == Occurs(s.sh.spool, x) + Gone(s.sh.log, x)
  {
    var init := Initial(cfg, producers, workers);
    var s := Run(init, actions, true);
    RunInOrder(init, actions);
    NothingInHands(s, x);
    RunKeepsThreads(init, actions, 1 + producers);
    assert init.threads[1 + producers].Worker?;
    assert ThreadOk(s.cfg, s.stopped, s.fl, s.sh, s.threads[1 + producers]);
    InHandsOfIdle(init.threads, x);
    RunAccounts(init, actions, true, x);
  }

  lemma StepKeepsThreads(s: State, a: Action, i: nat)
    requires InOrder(s) && CanStep(s, a, true) && i < |s.threads| && s.threads[i].Worker?
    ensures var t := Step(s, a, true); i < |t.threads| && t.threads[i].Worker?
  {
    if a.Move? && a.i == i {
      assert ThreadOk(s.cfg, s.stopped, s.fl, s.sh, s.threads[i]);
      WorkerStaysOk(s, s.threads[i], a.c);
    }
  }

  lemma {:induction false} RunKeepsThreads(s: State, actions: seq<Action>, i: nat)
    requires InOrder(s) && i < |s.threads| && s.threads[i].Worker?
    ensures var t := Run(s, actions, true); i < |t.threads| && t.threads[i].Worker?
    decreases |actions|
  {
    if actions != [] {
      if CanStep(s, actions[0], true) {
        StepInOrder(s, actions[0]);
        StepKeepsThreads(s, actions[0], i);
        RunKeepsThreads(Step(s, actions[0], true), actions[1..], i);
      } else {
        RunKeepsThreads(s, actions[1..], i);
      }
    }
  }

  lemma {:induction false} RunExtends(s: State, actions: seq<Action>, a: Action)
    requires CanStep(Run(s, actions, false), a, false)
    ensures Run(s, actions + [a], false) == Step(Run(s, actions, false), a, false)
    decreases |actions|
  {
    if actions == [] {
      assert [a][1..] == [] && actions + [a] == [a];
    } else {
      assert (actions + [a])[1..] == actions[1..] + [a];
      RunExtends(if CanStep(s, actions[0], false) then Step(s, actions[0], false) else s, actions[1..], a);
    }
  }

  lemma Advance(init: State, actions: seq<Action>, s: State, a: Action) returns (more: seq<Action>, t: State)
    requires s == Run(init, actions, false) && CanStep(s, a, false)
    ensures t == Step(s, a, false) && t == Run(init, more, false)
  {
    more, t := actions + [a], Step(s, a, false);
    RunExtends(init, actions, a);
  }

  lemma ClosedEarly(init: State) returns (actions: seq<Action>, s: State)
    requires init == Initial(Config(false, 1, 0), 1, 1)
    ensures s == Run(init, actions, false)
    ensures s == init.(fl := Flags(true, true), threads := init.threads[2 := Worker(Exited, [])])
  {
    actions, s := Advance(init, [], init, Close);
    actions, s := Advance(init, actions, s, Move(2, Notice));
    actions, s := Advance(init, actions, s, Move(2, Leave(Empty)));
    actions, s := Advance(init, actions, s, Wait);
    assert s.sh.log == [];
    assert s.threads == init.threads[2 := Worker(Exited, [])];
  }

  /** Without the order a batch handed over once the worker has left stays in the queue for ever. */
  lemma LateBatchIsStranded(b: Batch) returns (actions: seq<Action>)
    ensures var s := Run(Initial(Config(false, 1, 0), 1, 1), actions, false);
            WaitReturned(s) && s.handed == [b] && s.sh.queue == [b] && WorkersExited(s)
  {
    var init := Initial(Config(false, 1, 0), 1, 1);
    var s;
    actions, s := ClosedEarly(init);
    actions, s := Advance(init, actions, s, Hand(1, b));
    actions, s := Advance(init, actions, s, Move(1, Go(true)));
    actions, s := Advance(init, actions, s, Move(1, Go(true)));
  }

  /** A batch handed over on a live connection reaches the worker's window. */
  lemma BatchIsAggregated(init: State, b: Batch) returns (actions: seq<Action>, s: State)
    requires init.cfg.queueSize > 0 && init == Initial(init.cfg, 1, 1)
    ensures s == Run(init, actions, false)
    ensures s == init.(handed := [b], threads := init.threads[2 := Worker(Ready(false), [b])])
  {
    actions, s := Advance(init, [], init, Hand(1, b));
    actions, s := Advance(init, actions, s, Move(1, Go(true)));
    actions, s := Advance(init, actions, s, Move(1, Go(true)));
    actions, s := Advance(init, actions, s, Move(2, Take));
    actions, s := Advance(init, actions, s, Move(2, Append));
    assert s.sh.queue == [] && s.handed == [b];
    assert s.threads == init.threads[2 := Worker(Ready(false), [b])];
  }

  /** Accepted, it is delivered. */
  lemma AcceptedBatchIsDelivered(cfg: Config, b: Batch) returns (actions: seq<Action>)
    requires cfg.queueSize > 0
    ensures Run(Initial(cfg, 1, 1), actions, false).sh.log == [Exit(b, Delivered)]
  {
    var init := Initial(cfg, 1, 1);
    var s;
    actions, s := BatchIsAggregated(init, b);
    actions, s := Advance(init, actions, s, Move(2, Flush(Accepted)));
    assert [b][..0] == [];
    assert Exits([b], Delivered) == [Exit(b, Delivered)];
  }

  /** Refused, with a cache, it ends up in the cache, and nothing is counted or recorded as gone. */
  lemma RefusedBatchIsCached(cfg: Config, b: Batch) returns (actions: seq<Action>)
    requires cfg.queueSize > 0 && cfg.spoolOn
    ensures var s := Run(Initial(cfg, 1, 1), actions, false);
            s.sh.spool == [b] && s.sh.log == [] && s.sh.droppedCount == 0 && s.sh.queue == [] && s.sh.spoolCh == []
  {
    var init := Initial(cfg, 1, 1);
    var s;
    actions, s := BatchIsAggregated(init, b);
    actions, s := Advance(init, actions, s, Move(2, Flush(Rejected)));
    actions, s := Advance(init, actions, s, Move(2, Spool));
    actions, s := Advance(init, actions, s, Move(0, Take));
    actions, s := Advance(init, actions, s, Move(0, TrimOldest(true)));
    actions, s := Advance(init, actions, s, Move(0, Insert(true)));
  }

  ghost predicate NothingInMemory(s: State) {
    s.sh.queue == [] && s.sh.spoolCh == [] && forall x :: InHands(s.threads, x) == 0
  }

  /** Whenever the workers have left and Wait has returned, no batch is in memory. */
  ghost predicate ShutdownKeepsAll(orderly: bool) {
    forall cfg, producers: nat, workers: nat, actions ::
      var s := Run(Initial(cfg, producers, workers), actions, orderly);
      workers > 0 && WorkersExited(s) && WaitReturned(s) ==> NothingInMemory(s)
  }

  /** A shutdown is without loss exactly when the documented order is kept. */
  lemma ShutdownSafeExactly(orderly: bool)
    ensures ShutdownKeepsAll(orderly) <==> orderly
  {
    if orderly {
      forall cfg, producers: nat, workers: nat, actions |
        var s := Run(Initial(cfg, producers, workers), actions, orderly);
        workers > 0 && WorkersExited(s) && WaitReturned(s)
        ensures NothingInMemory(Run(Initial(cfg, producers, workers), actions, orderly))
      {
        forall x: Weight
          ensures InHands(Run(Initial(cfg, producers, workers), actions, true).threads, x) == 0
        {
          OrderlyShutdownKeepsAll(cfg, producers, workers, actions, x);
        }
        OrderlyShutdownKeepsAll(cfg, producers, workers, actions, _ => 0);
      }
    } else {
      var actions := LateBatchIsStranded(0);
      assert !NothingInMemory(Run(Initial(Config(false, 1, 0), 1, 1), actions, false));
    }
  }
}
