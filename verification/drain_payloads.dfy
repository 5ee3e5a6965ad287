/**
 What replay sends (push/drain.go): the payloads of a window are built batch by batch
 within the builder's and the row limit's bounds, none smaller than it need be, and
 what is recorded about each is what its write was answered.
 */
module DrainPayloads {

  import opened Spool
  import opened Drain

  /** The builder takes b behind g, within the row limit. */
  ghost predicate Joins(cfg: Config, g: seq<SpoolBatch>, b: SpoolBatch) {
    cfg.agg.accepts(g, b) && (g != [] && cfg.agg.rows(g) > 0 ==> cfg.agg.rows(g) + b.recordCount <= cfg.maxRows)
  }

  /** One of the three reasons to close a group in front of b. */
  ghost predicate Stops(cfg: Config, g: seq<SpoolBatch>, b: SpoolBatch, narrow: bool) {
    || narrow || !cfg.agg.accepts(g, b)
    || (cfg.agg.rows(g) > 0 && cfg.agg.rows(g) + b.recordCount > cfg.maxRows)
  }

  ghost predicate AllJoin(cfg: Config, g: seq<SpoolBatch>) {
    forall i :: 0 <= i < |g| ==> Joins(cfg, g[..i], g[i])
  }

  /** How many payloads have been written. */
  function Writes(log: seq<Event>): nat {
    if log == [] then 0
    else Writes(log[..|log| - 1]) + if log[|log| - 1].Delivered? || log[|log| - 1].Rejected? then 1 else 0
  }

  /** Every payload is one the builder makes; it is written unless empty, and its event is the answer of its write. */
  ghost predicate HonestAt(cfg: Config, before: nat, e: Event) {
    match e
    case Delivered(g) => g != [] && AllJoin(cfg, g) && cfg.agg.rows(g) > 0 && cfg.write(before, g)
    case Rejected(g) => g != [] && AllJoin(cfg, g) && cfg.agg.rows(g) > 0 && !cfg.write(before, g)
    case Unwritable(g) => g != [] && AllJoin(cfg, g) && cfg.agg.rows(g) == 0
    case Dropped(_) => true
  }

  /** From the first event on, with `calls` payloads written before. */
  ghost predicate Honest(cfg: Config, calls: nat, log: seq<Event>) {
    log == []
    || (Honest(cfg, calls, log[..|log| - 1]) && HonestAt(cfg, calls + Writes(log[..|log| - 1]), log[|log| - 1]))
  }

  lemma {:induction false} HonestEach(cfg: Config, calls: nat, log: seq<Event>, i: nat)
    requires Honest(cfg, calls, log) && i < |log|
    ensures HonestAt(cfg, calls + Writes(log[..i]), log[i])
  {
    if i < |log| - 1 {
      assert log[..|log| - 1][..i] == log[..i];
      HonestEach(cfg, calls, log[..|log| - 1], i);
    }
  }

  /** The groups are consecutive pieces of the window, none shorter than it need be. */
  ghost predicate Tiles(cfg: Config, events: seq<Event>, pend: seq<SpoolBatch>, narrow: bool)
    decreases |events|
  {
    events == [] ||
    (!events[0].Dropped? &&
      var g := events[0].group;
      && 0 < |g| <= |pend| && g == pend[..|g|] && (narrow ==> |g| == 1)
      && (|g| < |pend| ==> Stops(cfg, g, pend[|g|], narrow))
      && Tiles(cfg, events[1..], pend[|g|..], narrow))
  }

  lemma {:induction false} GroupIsRight(cfg: Config, pend: seq<SpoolBatch>, narrow: bool, taken: nat)
    requires taken <= |pend| && forall i :: 0 <= i < taken ==> Joins(cfg, pend[..i], pend[i])
    ensures var n := GroupSize(cfg, pend, narrow, taken);
            && (forall i :: 0 <= i < n ==> Joins(cfg, pend[..i], pend[i]))
            && (n < |pend| ==> Stops(cfg, pend[..n], pend[n], narrow))
    decreases |pend| - taken
  {
    if taken < |pend| && GroupSize(cfg, pend, narrow, taken) > taken {
      GroupIsRight(cfg, pend, narrow, taken + 1);
    }
  }

  lemma FirstGroupJoins(cfg: Config, pend: seq<SpoolBatch>, narrow: bool)
    requires cfg.Valid() && pend != []
    ensures var n := GroupSize(cfg, pend, narrow, 0);
            && 0 < n && AllJoin(cfg, pend[..n]) && (narrow ==> n == 1)
            && (n < |pend| ==> Stops(cfg, pend[..n], pend[n], narrow))
  {
    FirstGroup(cfg, pend, narrow);
    GroupIsRight(cfg, pend, narrow, 0);
    var n := GroupSize(cfg, pend, narrow, 0);
    assert forall i :: 0 <= i < n ==> pend[..n][..i] == pend[..i];
  }

  lemma {:induction false} WritesConcat(a: seq<Event>, b: seq<Event>)
    ensures Writes(a + b) == Writes(a) + Writes(b)
  {
    if b == [] {
      assert a + b == a;
    } else {
      WritesConcat(a, b[..|b| - 1]);
      assert (a + b)[..|a + b| - 1] == a + b[..|b| - 1];
    }
  }

  lemma {:induction false} HonestConcat(cfg: Config, calls: nat, a: seq<Event>, b: seq<Event>)
    requires Honest(cfg, calls, a) && Honest(cfg, calls + Writes(a), b)
    ensures Honest(cfg, calls, a + b)
  {
    if b == [] {
      assert a + b == a;
    } else {
      var front := b[..|b| - 1];
      HonestConcat(cfg, calls, a, front);
      WritesConcat(a, front);
      assert (a + b)[..|a + b| - 1] == a + front && (a + b)[|a + b| - 1] == b[|b| - 1];
    }
  }

  lemma HonestOne(cfg: Config, calls: nat, e: Event)
    requires HonestAt(cfg, calls, e)
    ensures Honest(cfg, calls, [e]) && Writes([e]) == if e.Delivered? || e.Rejected? then 1 else 0
  {
    assert [e][..0] == [];
    assert Honest(cfg, calls, []) && Writes([]) == 0;
  }

  /** One window: its groups tile the fetched rows from the first on, none shorter than it need be. */
  lemma {:induction false} WindowTiles(cfg: Config, pend: seq<SpoolBatch>, narrow: bool, calls: nat)
    requires cfg.Valid()
    ensures Tiles(cfg, DrainWindow(cfg, pend, narrow, calls).events, pend, narrow)
    decreases |pend|
  {
    if pend != [] {
      FirstGroupJoins(cfg, pend, narrow);
      var n := GroupSize(cfg, pend, narrow, 0);
      var group := pend[..n];
      if cfg.agg.rows(group) == 0 {
        WindowTiles(cfg, pend[n..], narrow, calls);
        var rest := DrainWindow(cfg, pend[n..], narrow, calls).events;
        assert ([Unwritable(group)] + rest)[1..] == rest;
      } else if cfg.write(calls, group) {
        WindowTiles(cfg, pend[n..], narrow, calls + 1);
        var rest := DrainWindow(cfg, pend[n..], narrow, calls + 1).events;
        assert ([Delivered(group)] + rest)[1..] == rest;
      }
    }
  }

  /** The events are what was built and answered, and the writes are counted. */
  ghost predicate HonestWindow(cfg: Config, calls: nat, w: Window) {
    Honest(cfg, calls, w.events) && w.calls == calls + Writes(w.events)
  }

  lemma {:induction false} WindowIsHonest(cfg: Config, pend: seq<SpoolBatch>, narrow: bool, calls: nat)
    requires cfg.Valid()
    ensures HonestWindow(cfg, calls, DrainWindow(cfg, pend, narrow, calls))
    decreases |pend|
  {
    if pend != [] {
      FirstGroupJoins(cfg, pend, narrow);
      var n := GroupSize(cfg, pend, narrow, 0);
      var group := pend[..n];
      if cfg.agg.rows(group) == 0 {
        WindowIsHonest(cfg, pend[n..], narrow, calls);
        PrependHonest(cfg, calls, Unwritable(group), DrainWindow(cfg, pend[n..], narrow, calls), n);
      } else if cfg.write(calls, group) {
        WindowIsHonest(cfg, pend[n..], narrow, calls + 1);
        PrependHonest(cfg, calls, Delivered(group), DrainWindow(cfg, pend[n..], narrow, calls + 1), n);
      } else {
        HonestOne(cfg, calls, Rejected(group));
      }
    }
  }

  lemma PrependHonest(cfg: Config, calls: nat, e: Event, rest: Window, n: nat)
    requires HonestAt(cfg, calls, e)
    requires HonestWindow(cfg, calls + (if e.Delivered? || e.Rejected? then 1 else 0), rest)
    ensures HonestWindow(cfg, calls, rest.(events := [e] + rest.events, removed := n + rest.removed))
  {
    HonestOne(cfg, calls, e);
    HonestConcat(cfg, calls, [e], rest.events);
    WritesConcat([e], rest.events);
  }

  /** What is kept of the log from window to window. */
  ghost predicate LogOk(cfg: Config, calls: nat, log: seq<Event>) {
    Honest(cfg, 0, log) && calls == Writes(log)
  }

  lemma WindowKeepsLog(cfg: Config, calls: nat, log: seq<Event>, pend: seq<SpoolBatch>, narrow: bool)
    requires cfg.Valid() && LogOk(cfg, calls, log)
    ensures var w := DrainWindow(cfg, pend, narrow, calls); LogOk(cfg, w.calls, log + w.events)
  {
    var w := DrainWindow(cfg, pend, narrow, calls);
    WindowIsHonest(cfg, pend, narrow, calls);
    WritesConcat(log, w.events);
    HonestConcat(cfg, 0, log, w.events);
  }

  lemma VerdictKeepsLog(cfg: Config, calls: nat, log: seq<Event>, b: SpoolBatch)
    requires LogOk(cfg, calls, log)
    ensures LogOk(cfg, calls, log + [Dropped(b)])
  {
    HonestOne(cfg, calls, Dropped(b));
    HonestConcat(cfg, 0, log, [Dropped(b)]);
    WritesConcat(log, [Dropped(b)]);
  }

  /**
   Over any run, every payload was built batch by batch with what the builder takes
   and the row limit allows, was written unless it was empty, and is recorded as
   delivered or rejected as that very write was answered.
   */
  lemma {:induction false} PayloadsAreRight(cfg: Config, rows: seq<SpoolBatch>, steps: seq<Step>)
    requires cfg.Valid()
    ensures var t := Run(cfg, Fresh(rows), steps); LogOk(cfg, t.calls, t.log)
    decreases |steps|
  {
    if steps != [] {
      PayloadsAreRight(cfg, rows, steps[..|steps| - 1]);
      var s := Run(cfg, Fresh(rows), steps[..|steps| - 1]);
      if steps[|steps| - 1].DrainRound? && s.rows != [] {
        var w := DrainWindow(cfg, Oldest(s.rows), s.narrow, s.calls);
        WindowKeepsLog(cfg, s.calls, s.log, Oldest(s.rows), s.narrow);
        if w.removed < |s.rows| {
          VerdictKeepsLog(cfg, w.calls, s.log + w.events, s.rows[w.removed..][0]);
        }
      }
    }
  }

  /** The same whatever happens to the cache under the windows. */
  lemma {:induction false} FetchedPayloadsAreRight(cfg: Config, fetched: seq<seq<SpoolBatch>>)
    requires cfg.Valid()
    ensures var j := JudgeRun(cfg, fetched); LogOk(cfg, j.calls, j.log)
    decreases |fetched|
  {
    if fetched != [] {
      FetchedPayloadsAreRight(cfg, fetched[..|fetched| - 1]);
      var j := JudgeRun(cfg, fetched[..|fetched| - 1]);
      var pend := fetched[|fetched| - 1];
      var w := DrainWindow(cfg, pend, j.narrow, j.calls);
      WindowKeepsLog(cfg, j.calls, j.log, pend, j.narrow);
      if w.removed < |pend| {
        VerdictKeepsLog(cfg, w.calls, j.log + w.events, pend[w.removed]);
      }
    }
  }
}
