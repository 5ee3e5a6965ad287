/**
 One supervised plugin process and the link in front of it (pluginhost/process.go,
 pluginhost/link.go).  The supervisor goroutine is the caller of MarkUp, MarkDown
 and RecordFail.
 */
module PluginProcess {

  import opened Wrappers

  class Client {
    var epoch: nat
    var up: bool

    constructor ()
      ensures up && epoch == 0
    {
      up, epoch := true, 0;
    }
  }

  datatype Options = Options(restartMin: nat, restartMax: nat, maxRestarts: nat, stableAfter: nat)

  class Process {
    const opts: Options
    var cur: Client?
    var epochBase: nat
    var epochNum: nat
    var stopped: bool
    var restarts: nat
    var delay: nat
    var lastUp: Option<nat>

    function Epoch(): nat
      reads this
    {
      epochBase + epochNum
    }

    /** The client that is current carries the generation the process reports. */
    ghost predicate Valid()
      reads this, cur
    {
      cur != null ==> cur.epoch == Epoch() && epochNum > 0
    }

    constructor (opts: Options)
      ensures Valid() && this.opts == opts && Epoch() == 0 && cur == null && !stopped
      ensures restarts == 0 && delay == 0
    {
      this.opts := opts;
      cur, epochBase, epochNum, stopped, restarts, delay, lastUp := null, 0, 0, false, 0, 0, None;
    }

    /** The backoff is left alone: only a long enough life resets it. */
    method MarkUp(cl: Client, now: nat)
      requires cl.up
      modifies this`cur, this`lastUp, this`epochNum, cl`epoch
      ensures Valid() && cur == cl && lastUp == Some(now)
      ensures Epoch() == old(Epoch()) + 1 && epochNum == old(epochNum) + 1
      ensures epochBase == old(epochBase)
    {
      cur, lastUp := cl, Some(now);
      epochNum := epochNum + 1;
      cl.epoch := Epoch();
    }

    method SetEpochBase(base: nat)
      requires Valid()
      modifies this`epochBase, cur
      ensures Valid() && epochBase == base && (cur != null ==> cur.up == old(cur.up))
    {
      epochBase := base;
      if cur != null {
        cur.epoch := Epoch();
      }
    }

    method MarkDown(now: nat)
      modifies this`restarts, this`delay, cur
      ensures cur != null ==> !cur.up && cur.epoch == old(cur.epoch)
      ensures restarts == AfterLife(opts, old(restarts), lastUp, now)
      ensures delay == AfterLife(opts, old(delay), lastUp, now)
    {
      if lastUp.Some? && now - lastUp.value >= opts.stableAfter {
        restarts, delay := 0, 0;
      }
      if cur != null {
        cur.up := false;
      }
    }

    method RecordFail() returns (again: bool)
      modifies this`restarts, this`delay
      ensures Backoff(restarts, delay) == OneMoreFailure(opts, old(Backoff(restarts, delay)))
      ensures again <==> restarts <= opts.maxRestarts
    {
      restarts := restarts + 1;
      if restarts > opts.maxRestarts {
        return false;
      }
      if delay <= 0 {
        delay := opts.restartMin;
      } else {
        delay := delay * 2;
        if delay > opts.restartMax {
          delay := opts.restartMax;
        }
      }
      return true;
    }

    /** `late` is a start that completes between the stop request and the supervisor's exit. */
    method Retire(late: Client?, now: nat)
      requires Valid() && (late != null ==> late.up)
      modifies this`stopped, this`cur, this`lastUp, this`epochNum, cur, late
      ensures Valid() && stopped && cur == null
      ensures old(cur) != null && old(cur) != late ==> late != null || !old(cur).up
      ensures late != null ==> !late.up && late.epoch == Epoch()
      ensures epochBase == old(epochBase) && Epoch() == old(Epoch()) + if late != null then 1 else 0
    {
      stopped := true;
      if late != null {
        MarkUp(late, now);
      }
      var cl := cur;
      cur := null;
      if cl != null {
        cl.up := false;
      }
    }
  }

  class Link {
    var cur: Process

    constructor (p: Process)
      ensures cur == p
    {
      cur := p;
    }

    /**
     The old instance is retired before its generation is read, so the new one
     lies strictly above every generation the old one ever reached, a start that
     slipped in during retirement included.
     */
    method RetireAndSwap(next: Process, late: Client?, now: nat)
      requires cur.Valid() && next.Valid() && next != cur && next.cur != null
      requires next.cur != cur.cur && next.cur != late && (late != null ==> late.up)
      modifies this, cur, cur.cur, late, next`epochBase, next.cur
      ensures cur == next && next.Valid() && next.cur == old(next.cur) && next.cur.epoch == next.Epoch()
      ensures next.cur.up == old(next.cur.up)
      ensures old(cur).stopped && old(cur).cur == null
      ensures old(cur.Epoch()) <= old(cur).Epoch() < next.Epoch()
      ensures late != null ==> late.epoch < next.Epoch()
    {
      var prior := cur;
      prior.Retire(late, now);
      next.SetEpochBase(prior.Epoch());
      cur := next;
    }
  }

  // ----- The restart backoff -----

  datatype Backoff = Backoff(restarts: nat, delay: nat)

  function AfterLife(o: Options, count: nat, lastUp: Option<nat>, now: nat): nat {
    if lastUp.Some? && now - lastUp.value >= o.stableAfter then 0 else count
  }

  function OneMoreFailure(o: Options, b: Backoff): Backoff {
    var n := b.restarts + 1;
    if n > o.maxRestarts then Backoff(n, b.delay)
    else if b.delay == 0 then Backoff(n, o.restartMin)
    else Backoff(n, Min(b.delay * 2, o.restartMax))
  }

  function Min(a: nat, b: nat): nat {
    if a <= b then a else b
  }

  function Failures(o: Options, k: nat): Backoff {
    if k == 0 then Backoff(0, 0) else OneMoreFailure(o, Failures(o, k - 1))
  }

  function Doubled(n: nat, times: nat): (d: nat)
    ensures n > 0 ==> d >= n
  {
    if times == 0 then n else 2 * Doubled(n, times - 1)
  }

  /**
   In a row of failures with no long life between them the waits double from the
   minimum up to the maximum, and supervision ends with failure number
   maxRestarts + 1.
   */
  lemma {:induction false} WaitsDouble(o: Options, k: nat)
    requires 0 < o.restartMin <= o.restartMax && 0 < k <= o.maxRestarts
    ensures Failures(o, k) == Backoff(k, Min(Doubled(o.restartMin, k - 1), o.restartMax))
  {
    if k > 1 {
      WaitsDouble(o, k - 1);
    }
  }
}
