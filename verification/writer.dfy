/**
 The aggregating writer of a channel (push/writer.go): batches are appended to one
 payload until it is full, conflicts with the next batch, or the interval passes.
 */
module Writer {

  import opened Spool
  import opened Drain

  /** What the loop receives, in order, until quit and an empty queue. */
  datatype Arrival = Batch(b: SpoolBatch) | Tick

  function Batches(arrivals: seq<Arrival>): seq<SpoolBatch> {
    if arrivals == [] then []
    else Batches(arrivals[..|arrivals| - 1])
         + match arrivals[|arrivals| - 1] { case Batch(b) => [b] case Tick => [] }
  }

  function Flat(windows: seq<seq<SpoolBatch>>): seq<SpoolBatch> {
    if windows == [] then [] else Flat(windows[..|windows| - 1]) + windows[|windows| - 1]
  }

  /** The builder took the batches one after the other, and was not full before the last. */
  ghost predicate Fits(agg: Aggregator, maxRows: nat, window: seq<SpoolBatch>) {
    forall i :: 0 <= i < |window| ==>
      && agg.accepts(window[..i], window[i])
      && (i > 0 ==> agg.rows(window[..i]) < maxRows)
  }

  ghost predicate AllFit(agg: Aggregator, maxRows: nat, windows: seq<seq<SpoolBatch>>) {
    forall k :: 0 <= k < |windows| ==> Fits(agg, maxRows, windows[k])
  }

  ghost predicate FreshTakesAny(agg: Aggregator) {
    forall b :: agg.accepts([], b)
  }

  lemma FitsMore(agg: Aggregator, maxRows: nat, window: seq<SpoolBatch>, b: SpoolBatch)
    requires Fits(agg, maxRows, window) && agg.accepts(window, b)
    requires window == [] || agg.rows(window) < maxRows
    ensures Fits(agg, maxRows, window + [b])
  {
    var more := window + [b];
    forall i | 0 <= i < |more|
      ensures agg.accepts(more[..i], more[i]) && (i > 0 ==> agg.rows(more[..i]) < maxRows)
    {
      if i < |window| {
        assert more[..i] == window[..i];
      } else {
        assert more[..i] == window;
      }
    }
  }

  /** Why a window was closed: full, in front of a batch it could not take, by the interval, or at the end. */
  datatype Reason = Full | Conflict(next: SpoolBatch) | Interval | Stop

  /** No window is closed before it must be: it is full, or what came next did not fit, or the interval has passed. */
  ghost predicate ClosedFor(agg: Aggregator, maxRows: nat, windows: seq<seq<SpoolBatch>>, k: nat, why: Reason, all: seq<SpoolBatch>)
    requires k < |windows|
  {
    match why
    case Full => windows[k] != [] && agg.rows(windows[k]) >= maxRows
    case Conflict(b) => !agg.accepts(windows[k], b) && Flat(windows[..k + 1]) + [b] <= all
    case Interval => true
    case Stop => Flat(windows[..k + 1]) == all
  }

  ghost predicate AllClosedFor(agg: Aggregator, maxRows: nat, windows: seq<seq<SpoolBatch>>, reasons: seq<Reason>,
                               all: seq<SpoolBatch>)
  {
    && |reasons| == |windows|
    && forall k :: 0 <= k < |windows| ==> ClosedFor(agg, maxRows, windows, k, reasons[k], all)
  }

  function Intervals(reasons: seq<Reason>): nat {
    if reasons == [] then 0 else Intervals(reasons[..|reasons| - 1]) + if reasons[|reasons| - 1].Interval? then 1 else 0
  }

  function Ticks(arrivals: seq<Arrival>): nat {
    if arrivals == [] then 0 else Ticks(arrivals[..|arrivals| - 1]) + if arrivals[|arrivals| - 1].Tick? then 1 else 0
  }

  lemma OneMoreWindow(agg: Aggregator, maxRows: nat, windows: seq<seq<SpoolBatch>>, reasons: seq<Reason>,
                      all: seq<SpoolBatch>, w: seq<SpoolBatch>, why: Reason)
    requires AllClosedFor(agg, maxRows, windows, reasons, all)
    requires ClosedFor(agg, maxRows, windows + [w], |windows|, why, all)
    ensures AllClosedFor(agg, maxRows, windows + [w], reasons + [why], all)
    ensures Intervals(reasons + [why]) == Intervals(reasons) + if why.Interval? then 1 else 0
  {
    assert (reasons + [why])[..|reasons|] == reasons;
    forall k | 0 <= k < |windows|
      ensures ClosedFor(agg, maxRows, windows + [w], k, reasons[k], all)
    {
      assert (windows + [w])[..k + 1] == windows[..k + 1];
    }
  }

  lemma {:induction false} BatchesGrow(arrivals: seq<Arrival>, n: nat)
    requires n <= |arrivals|
    ensures Batches(arrivals[..n]) <= Batches(arrivals)
    decreases |arrivals| - n
  {
    if n == |arrivals| {
      assert arrivals[..n] == arrivals;
    } else {
      assert arrivals[..n + 1][..n] == arrivals[..n];
      BatchesGrow(arrivals, n + 1);
    }
  }

  class AggregateWriter {
    const agg: Aggregator
    const maxRows: nat
    var pending: seq<SpoolBatch>
    ghost var windows: seq<seq<SpoolBatch>>
    ghost var reasons: seq<Reason>

    constructor (agg: Aggregator, maxRows: nat)
      ensures this.agg == agg && this.maxRows == maxRows && pending == [] && windows == [] && reasons == []
    {
      this.agg, this.maxRows, pending, windows, reasons := agg, maxRows, [], [], [];
    }

    /** Between arrivals: everything received is in a window or pending, in order; `all` is what will have arrived. */
    ghost predicate Holds(received: seq<SpoolBatch>, all: seq<SpoolBatch>)
      reads this
    {
      && Flat(windows) + pending == received
      && AllFit(agg, maxRows, windows) && Fits(agg, maxRows, pending)
      && AllClosedFor(agg, maxRows, windows, reasons, all)
    }

    method Flush(ghost received: seq<SpoolBatch>, ghost all: seq<SpoolBatch>, ghost why: Reason)
      requires Holds(received, all)
      requires ClosedFor(agg, maxRows, windows + [pending], |windows|, why, all)
      modifies this
      ensures Holds(received, all) && pending == [] && windows == old(windows) + [old(pending)]
      ensures Intervals(reasons) == old(Intervals(reasons)) + if why.Interval? then 1 else 0
    {
      OneMoreWindow(agg, maxRows, windows, reasons, all, pending, why);
      windows, reasons := windows + [pending], reasons + [why];
      pending := [];
      assert windows[..|windows| - 1] == old(windows);
      assert Flat(windows) + pending == Flat(windows);
    }

    method Accept(b: SpoolBatch, ghost received: seq<SpoolBatch>, ghost all: seq<SpoolBatch>)
      requires FreshTakesAny(agg) && Holds(received, all) && (pending == [] || agg.rows(pending) < maxRows)
      requires received + [b] <= all
      modifies this
      ensures Holds(received + [b], all) && (pending == [] || agg.rows(pending) < maxRows)
      ensures Intervals(reasons) == old(Intervals(reasons))
    {
      while !agg.accepts(pending, b)
        invariant Holds(received, all) && (pending == [] || agg.rows(pending) < maxRows)
        invariant Intervals(reasons) == old(Intervals(reasons))
        decreases |pending|
      {
        NextWindow(windows, pending);
        Flush(received, all, Conflict(b));
      }
      FitsMore(agg, maxRows, pending, b);
      assert Flat(windows) + (pending + [b]) == (Flat(windows) + pending) + [b];
      pending := pending + [b];
      if agg.rows(pending) >= maxRows {
        Flush(received + [b], all, Full);
      }
    }

    /**
     From start to exit: the windows written concatenate to exactly what was
     received, in order; none mixes batches the builder would not combine, none grows
     past the batch that fills it, and none is closed before it is full or what comes
     next does not fit, except once for every interval that passes.
     */
    method Run(arrivals: seq<Arrival>)
      requires FreshTakesAny(agg) && pending == [] && windows == [] && reasons == []
      modifies this
      ensures Flat(windows) == Batches(arrivals) && pending == []
      ensures AllFit(agg, maxRows, windows)
      ensures AllClosedFor(agg, maxRows, windows, reasons, Batches(arrivals)) && Intervals(reasons) == Ticks(arrivals)
    {
      ghost var all := Batches(arrivals);
      assert arrivals[..0] == [];
      for n := 0 to |arrivals|
        invariant Holds(Batches(arrivals[..n]), all) && (pending == [] || agg.rows(pending) < maxRows)
        invariant Intervals(reasons) == Ticks(arrivals[..n])
      {
        assert arrivals[..n + 1][..n] == arrivals[..n];
        BatchesGrow(arrivals, n + 1);
        match arrivals[n] {
          case Batch(b) => Accept(b, Batches(arrivals[..n]), all);
          case Tick => Flush(Batches(arrivals[..n]), all, Interval);
        }
      }
      assert arrivals[..|arrivals|] == arrivals;
      NextWindow(windows, pending);
      Flush(all, all, Stop);
    }
  }

  lemma NextWindow(windows: seq<seq<SpoolBatch>>, w: seq<SpoolBatch>)
    ensures Flat((windows + [w])[..|windows| + 1]) == Flat(windows) + w
  {
    assert (windows + [w])[..|windows| + 1] == windows + [w];
    assert (windows + [w])[..|windows|] == windows;
  }
}
