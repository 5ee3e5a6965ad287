/**
 Replay of the offline cache (push/drain.go): the grouped drainer and the drain
 loop with poison-batch detection and narrowing.  The downstream is an arbitrary
 oracle over (write number, payload); the connection is up and storage works.
 */
module Drain {
  import opened Spool

  const DRAIN_WINDOW: nat := 16

  datatype Policy = Policy(poison: bool, narrow: bool)

  /**
   The payload builder of a channel: `accepts(group, b)` is Append on a builder
   that already holds `group`, `rows(group)` its row count.  Both builders report
   Empty exactly when that count is 0.
   */
  datatype Aggregator = Aggregator(accepts: (seq<SpoolBatch>, SpoolBatch) -> bool,
                                   rows: seq<SpoolBatch> -> nat)

  datatype Config = Config(agg: Aggregator, maxRows: nat, policy: Policy,
                           write: (nat, seq<SpoolBatch>) -> bool)
  {
    /** The builder contract: a fresh payload has no rows and takes any batch. */
    ghost predicate Valid() {
      agg.rows([]) == 0 && forall b :: agg.accepts([], b)
    }
  }

  /** What an observer of the channel sees, in order. */
  datatype Event =
    | Delivered(group: seq<SpoolBatch>)
    | Rejected(group: seq<SpoolBatch>)
    | Unwritable(group: seq<SpoolBatch>)  // an empty payload: deleted without a write
    | Dropped(batch: SpoolBatch)

  datatype Window = Window(events: seq<Event>, removed: nat, ok: bool, failID: nat, calls: nat)

  datatype Loop = Loop(poisonID: nat, narrow: bool, rows: seq<SpoolBatch>, calls: nat, log: seq<Event>)

  /** Grows a group over pend, `taken` batches being in already. */
  function GroupSize(cfg: Config, pend: seq<SpoolBatch>, narrow: bool, taken: nat): (n: nat)
    requires taken <= |pend|
    ensures taken <= n <= |pend|
    decreases |pend| - taken
  {
    if taken == |pend| then taken
    else if narrow && taken > 0 then taken
    else if !narrow && cfg.agg.rows(pend[..taken]) > 0
         && cfg.agg.rows(pend[..taken]) + pend[taken].recordCount > cfg.maxRows then taken
    else if !cfg.agg.accepts(pend[..taken], pend[taken]) then taken
    else GroupSize(cfg, pend, narrow, taken + 1)
  }

  /** One call of GroupedDrainer.Drain; `removed` is the length of the deleted prefix. */
  function DrainWindow(cfg: Config, pend: seq<SpoolBatch>, narrow: bool, calls: nat): (w: Window)
    ensures w.removed <= |pend|
    decreases |pend|
  {
    if pend == [] then Window([], 0, true, 0, calls)
    else
      var n := GroupSize(cfg, pend, narrow, 0);
      if n == 0 then Window([], 0, false, pend[0].id, calls)
      else
        var group := pend[..n];
        if cfg.agg.rows(group) == 0 then
          var rest := DrainWindow(cfg, pend[n..], narrow, calls);
          rest.(events := [Unwritable(group)] + rest.events, removed := n + rest.removed)
        else if cfg.write(calls, group) then
          var rest := DrainWindow(cfg, pend[n..], narrow, calls + 1);
          rest.(events := [Delivered(group)] + rest.events, removed := n + rest.removed)
        else
          Window([Rejected(group)], 0, false, group[0].id, calls + 1)
  }

  function Oldest(rows: seq<SpoolBatch>): (pend: seq<SpoolBatch>) {
    if |rows| <= DRAIN_WINDOW then rows else rows[..DRAIN_WINDOW]
  }

  /** The verdict of DrainLoop on one drained window. */
  function Settle(cfg: Config, s: Loop, w: Window): (t: Loop)
    requires w.removed <= |s.rows|
  {
    var left := s.rows[w.removed..];
    if w.ok then
      Loop(0, false, left, w.calls, s.log + w.events)
    else if cfg.policy.poison && s.poisonID == w.failID && left != [] then
      // w.failID is the head of what is left (WindowStops), so Delete(failID) removes the head
      Loop(0, s.narrow, left[1..], w.calls, s.log + w.events + [Dropped(left[0])])
    else
      Loop(w.failID, s.narrow || cfg.policy.narrow, left, w.calls, s.log + w.events)
  }

  /** One iteration of DrainLoop over a non-empty cache. */
  function Round(cfg: Config, s: Loop): (t: Loop)
    requires s.rows != []
  {
    Settle(cfg, s, DrainWindow(cfg, Oldest(s.rows), s.narrow, s.calls))
  }

  function LeftBy(e: Event): (gone: seq<SpoolBatch>) {
    match e
    case Delivered(g) => g
    case Unwritable(g) => g
    case Dropped(b) => [b]
    case Rejected(_) => []
  }

  /** The batches that have left the cache, in the order they left. */
  function Removed(log: seq<Event>): (gone: seq<SpoolBatch>) {
    if log == [] then [] else Removed(log[..|log| - 1]) + LeftBy(log[|log| - 1])
  }

  /** Every dropped batch was, alone, the payload of the write that had just failed. */
  ghost predicate DropsJustified(log: seq<Event>) {
    forall i :: 0 <= i < |log| && log[i].Dropped? ==> i > 0 && log[i - 1] == Rejected([log[i].batch])
  }

  /** Holds between rounds of the loop when the policy narrows. */
  ghost predicate Steady(cfg: Config, s: Loop) {
    && Ordered(s.rows)
    && (s.poisonID != 0 ==> s.narrow)
    && DropsJustified(s.log)
  }

  // ---- the window ----

  lemma {:induction false} RemovedConcat(a: seq<Event>, b: seq<Event>)
    ensures Removed(a + b) == Removed(a) + Removed(b)
  {
    if b == [] {
      assert a + b == a;
    } else {
      var front, last := b[..|b| - 1], b[|b| - 1];
      RemovedConcat(a, front);
      assert (a + b)[..|a + b| - 1] == a + front && (a + b)[|a + b| - 1] == last;
      assert (Removed(a) + Removed(front)) + LeftBy(last) == Removed(a) + (Removed(front) + LeftBy(last));
    }
  }

  /** The failed write at the end of a window that stopped at `culprit`. */
  ghost predicate EndsRejecting(events: seq<Event>, culprit: SpoolBatch, narrow: bool) {
    && events != []
    && events[|events| - 1].Rejected?
    && events[|events| - 1].group != []
    && events[|events| - 1].group[0] == culprit
    && (narrow ==> events[|events| - 1].group == [culprit])
  }

  ghost predicate DropFree(events: seq<Event>) {
    forall i :: 0 <= i < |events| ==> !events[i].Dropped?
  }

  /**
   What one window does: it deletes exactly the prefix it wrote, and stops at the
   first batch it could not write, naming that batch; when narrow, the failed
   write carried that batch alone.
   */
  ghost predicate StopsRight(w: Window, pend: seq<SpoolBatch>, narrow: bool) {
    && w.removed <= |pend|
    && Removed(w.events) == pend[..w.removed]
    && DropFree(w.events)
    && (w.ok <==> w.removed == |pend|)
    && (!w.ok ==> w.failID == pend[w.removed].id && EndsRejecting(w.events, pend[w.removed], narrow))
  }

  lemma {:induction false} WindowStops(cfg: Config, pend: seq<SpoolBatch>, narrow: bool, calls: nat)
    requires cfg.Valid()
    ensures StopsRight(DrainWindow(cfg, pend, narrow, calls), pend, narrow)
    decreases |pend|
  {
    if pend != [] {
      var n := GroupSize(cfg, pend, narrow, 0);
      FirstGroup(cfg, pend, narrow);
      var group := pend[..n];
      if cfg.agg.rows(group) == 0 {
        WindowStops(cfg, pend[n..], narrow, calls);
        PrependGroup(DrainWindow(cfg, pend[n..], narrow, calls), pend, narrow, n, Unwritable(group));
      } else if cfg.write(calls, group) {
        WindowStops(cfg, pend[n..], narrow, calls + 1);
        PrependGroup(DrainWindow(cfg, pend[n..], narrow, calls + 1), pend, narrow, n, Delivered(group));
      } else {
        var events := [Rejected(group)];
        assert events[..0] == [];
        assert EndsRejecting(events, pend[0], narrow);
      }
    }
  }

  lemma PrependGroup(rest: Window, pend: seq<SpoolBatch>, narrow: bool, n: nat, head: Event)
    requires 0 < n <= |pend|
    requires head == Delivered(pend[..n]) || head == Unwritable(pend[..n])
    requires StopsRight(rest, pend[n..], narrow)
    ensures StopsRight(rest.(events := [head] + rest.events, removed := n + rest.removed), pend, narrow)
  {
    var events := [head] + rest.events;
    assert Removed(events) == pend[..n + rest.removed] by {
      RemovedConcat([head], rest.events);
      RemovedSingle(head);
      SplitPrefix(pend, n, rest.removed);
    }
    if !rest.ok {
      EndsRejectingAfter([head], rest.events, pend[n..][rest.removed], narrow);
    }
  }

  lemma RemovedSingle(e: Event)
    requires e.Delivered? || e.Unwritable?
    ensures Removed([e]) == e.group
  {
    assert [e][..0] == [];
    assert Removed([e][..0]) == [];
  }

  lemma SplitPrefix<T>(s: seq<T>, n: nat, k: nat)
    requires n + k <= |s|
    ensures s[..n] + s[n..][..k] == s[..n + k]
  {
  }

  lemma EndsRejectingAfter(a: seq<Event>, b: seq<Event>, culprit: SpoolBatch, narrow: bool)
    requires EndsRejecting(b, culprit, narrow)
    ensures EndsRejecting(a + b, culprit, narrow)
  {
    assert (a + b)[|a + b| - 1] == b[|b| - 1];
  }

  /** A group is never empty, and holds one batch when narrow. */
  lemma FirstGroup(cfg: Config, pend: seq<SpoolBatch>, narrow: bool)
    requires cfg.Valid() && pend != []
    ensures 1 <= GroupSize(cfg, pend, narrow, 0)
    ensures narrow ==> GroupSize(cfg, pend, narrow, 0) == 1
  {
    assert pend[..0] == [];
    var n := GroupSize(cfg, pend, narrow, 1);
  }

  // ---- one round ----

  /** Lexicographic progress of the loop: the cache shrinks, or its head becomes the suspect. */
  ghost function Rank(s: Loop): nat {
    2 * |s.rows| + if s.rows != [] && s.poisonID == s.rows[0].id then 0 else 1
  }

  /** A round loses nothing: what leaves the cache leaves in order, through the log. */
  lemma RoundConserves(cfg: Config, s: Loop)
    requires cfg.Valid() && s.rows != []
    ensures var t := Round(cfg, s);
            && Removed(t.log) + t.rows == Removed(s.log) + s.rows
            && |t.rows| <= |s.rows| && t.rows == s.rows[|s.rows| - |t.rows|..]
  {
    WindowStops(cfg, Oldest(s.rows), s.narrow, s.calls);
    SettleConserves(cfg, s, DrainWindow(cfg, Oldest(s.rows), s.narrow, s.calls));
  }

  lemma SettleConserves(cfg: Config, s: Loop, w: Window)
    requires s.rows != [] && StopsRight(w, Oldest(s.rows), s.narrow)
    ensures var t := Settle(cfg, s, w); Removed(t.log) + t.rows == Removed(s.log) + s.rows
    ensures var t := Settle(cfg, s, w); |t.rows| <= |s.rows| && t.rows == s.rows[|s.rows| - |t.rows|..]
  {
    var left := s.rows[w.removed..];
    var log := s.log + w.events;
    AppendWindow(s, w);
    var t := Settle(cfg, s, w);
    if t.log != log {
      RemovedDrop(log, left);
      assert t.log == log + [Dropped(left[0])] && t.rows == left[1..];
    } else {
      assert t.rows == left;
    }
  }

  lemma AppendWindow(s: Loop, w: Window)
    requires s.rows != [] && StopsRight(w, Oldest(s.rows), s.narrow)
    ensures Removed(s.log + w.events) + s.rows[w.removed..] == Removed(s.log) + s.rows
  {
    assert Oldest(s.rows)[..w.removed] == s.rows[..w.removed];
    RemovedConcat(s.log, w.events);
    Regroup(Removed(s.log), s.rows, w.removed);
  }

  lemma Regroup<T>(gone: seq<T>, rows: seq<T>, n: nat)
    requires n <= |rows|
    ensures (gone + rows[..n]) + rows[n..] == gone + rows
  {
    assert rows[..n] + rows[n..] == rows;
  }

  lemma RemovedDrop(log: seq<Event>, left: seq<SpoolBatch>)
    requires left != []
    ensures Removed(log + [Dropped(left[0])]) + left[1..] == Removed(log) + left
  {
    var longer := log + [Dropped(left[0])];
    assert longer[..|longer| - 1] == log;
    assert [left[0]] + left[1..] == left;
  }

  /** With poison detection on, every round makes progress, whatever the downstream answers. */
  lemma RoundProgresses(cfg: Config, s: Loop)
    requires cfg.Valid() && s.rows != [] && cfg.policy.poison
    ensures Rank(Round(cfg, s)) < Rank(s)
  {
    var pend := Oldest(s.rows);
    var w := DrainWindow(cfg, pend, s.narrow, s.calls);
    WindowStops(cfg, pend, s.narrow, s.calls);
    assert pend[0] == s.rows[0];
  }

  lemma RoundKeepsSteady(cfg: Config, s: Loop)
    requires cfg.Valid() && s.rows != [] && Steady(cfg, s)
    requires cfg.policy.narrow
    ensures Steady(cfg, Round(cfg, s))
  {
    WindowStops(cfg, Oldest(s.rows), s.narrow, s.calls);
    SettleKeepsSteady(cfg, s, DrainWindow(cfg, Oldest(s.rows), s.narrow, s.calls));
  }

  lemma SettleKeepsSteady(cfg: Config, s: Loop, w: Window)
    requires s.rows != [] && Steady(cfg, s) && cfg.policy.narrow
    requires StopsRight(w, Oldest(s.rows), s.narrow)
    ensures Steady(cfg, Settle(cfg, s, w))
  {
    var t := Settle(cfg, s, w);
    var base := s.log + w.events;
    assert DropsJustified(base);
    if t.log != base {
      assert s.poisonID == w.failID == s.rows[w.removed].id;
      assert t.log[|base| - 1] == w.events[|w.events| - 1] == Rejected([s.rows[w.removed]]);
    }
  }

  // ---- runs ----

  datatype Step =
    | DrainRound
    | Arrive(batches: seq<SpoolBatch>)  // the write loop appends rows
    | Trim(n: nat)                      // and trims the oldest ones at capacity

  function Take(cfg: Config, s: Loop, step: Step): (t: Loop) {
    match step
    case DrainRound => if s.rows == [] then s else Round(cfg, s)
    case Arrive(batches) => s.(rows := s.rows + batches)
    case Trim(n) => s.(rows := if n <= |s.rows| then s.rows[n..] else [])
  }

  function Run(cfg: Config, s: Loop, steps: seq<Step>): (t: Loop) {
    if steps == [] then s else Take(cfg, Run(cfg, s, steps[..|steps| - 1]), steps[|steps| - 1])
  }

  function Fresh(rows: seq<SpoolBatch>): (s: Loop) {
    Loop(0, false, rows, 0, [])
  }

  /** The store hands out growing ids, so an arrival keeps the cache ordered. */
  ghost predicate StoreAssignsIds(cfg: Config, s: Loop, steps: seq<Step>) {
    forall k :: 0 < k <= |steps| && steps[k - 1].Arrive? ==> Ordered(Run(cfg, s, steps[..k]).rows)
  }

  lemma FrontAssignsIds(cfg: Config, s: Loop, steps: seq<Step>)
    requires steps != [] && StoreAssignsIds(cfg, s, steps)
    ensures StoreAssignsIds(cfg, s, steps[..|steps| - 1])
  {
    var front := steps[..|steps| - 1];
    forall k | 0 < k <= |front| && front[k - 1].Arrive?
      ensures Ordered(Run(cfg, s, front[..k]).rows)
    {
      assert front[..k] == steps[..k];
    }
  }

  /**
   Over any run, with arrivals and trims between the rounds: a batch is dropped
   only when the write of that one batch has just been rejected.
   */
  lemma {:induction false} NoInnocentDropped(cfg: Config, rows: seq<SpoolBatch>, steps: seq<Step>)
    requires cfg.Valid() && (cfg.policy.poison ==> cfg.policy.narrow)
    requires Ordered(rows) && StoreAssignsIds(cfg, Fresh(rows), steps)
    ensures var t := Run(cfg, Fresh(rows), steps);
            && Ordered(t.rows) && DropsJustified(t.log)
            && (cfg.policy.poison && t.poisonID != 0 ==> t.narrow)
            && (!cfg.policy.poison ==> DropFree(t.log))
    decreases |steps|
  {
    if steps != [] {
      var front := steps[..|steps| - 1];
      FrontAssignsIds(cfg, Fresh(rows), steps);
      NoInnocentDropped(cfg, rows, front);
      var s := Run(cfg, Fresh(rows), front);
      assert steps[..|steps|] == steps;
      if steps[|steps| - 1].DrainRound? && s.rows != [] {
        if cfg.policy.poison {
          RoundKeepsSteady(cfg, s);
        } else {
          PoisonOffDropsNothing(cfg, s);
        }
      }
    }
  }

  lemma PoisonOffDropsNothing(cfg: Config, s: Loop)
    requires cfg.Valid() && s.rows != [] && !cfg.policy.poison && Ordered(s.rows)
    requires DropFree(s.log)
    ensures DropFree(Round(cfg, s).log) && Ordered(Round(cfg, s).rows)
  {
    WindowStops(cfg, Oldest(s.rows), s.narrow, s.calls);
    RoundConserves(cfg, s);
  }

  function Rounds(n: nat): (steps: seq<Step>)
    ensures |steps| == n && forall i :: 0 <= i < n ==> steps[i] == DrainRound
  {
    seq(n, _ => DrainRound)
  }

  /**
   Over a fixed cache, with poison detection on: at most 2|rows| + 1 rounds
   empty it, and every batch leaves once, in id order.
   */
  lemma {:induction false} DrainTerminates(cfg: Config, rows: seq<SpoolBatch>, n: nat)
    requires cfg.Valid() && cfg.policy.poison && Ordered(rows)
    ensures var t := Run(cfg, Fresh(rows), Rounds(n));
            && Removed(t.log) + t.rows == rows
            && (t.rows == [] || Rank(t) + n <= Rank(Fresh(rows)))
    ensures n > 2 * |rows| ==> Run(cfg, Fresh(rows), Rounds(n)).rows == []
                               && Removed(Run(cfg, Fresh(rows), Rounds(n)).log) == rows
  {
    if n == 0 {
      assert Removed([]) + rows == rows;
    } else {
      DrainTerminates(cfg, rows, n - 1);
      assert Rounds(n)[..n - 1] == Rounds(n - 1);
      var s := Run(cfg, Fresh(rows), Rounds(n - 1));
      if s.rows != [] {
        RoundConserves(cfg, s);
        RoundProgresses(cfg, s);
      }
    }
  }

  // ---- a downstream that refuses bad data ----

  /** The healthy connection of the poison rule: a payload is refused iff it holds a bad batch. */
  ghost predicate RefusesExactly(cfg: Config, bad: set<nat>) {
    forall k: nat, g: seq<SpoolBatch> :: cfg.write(k, g) <==> forall b :: b in g ==> b.id !in bad
  }

  /** The log says of each batch what the downstream would say of it alone. */
  ghost predicate Truthful(log: seq<Event>, bad: set<nat>) {
    forall i :: 0 <= i < |log| ==>
      match log[i]
      case Delivered(g) => forall b :: b in g ==> b.id !in bad
      case Rejected(g) => exists b :: b in g && b.id in bad
      case Unwritable(g) => true
      case Dropped(b) => b.id in bad
  }

  lemma {:induction false} WindowTruthful(cfg: Config, pend: seq<SpoolBatch>, narrow: bool, calls: nat, bad: set<nat>)
    requires RefusesExactly(cfg, bad)
    ensures Truthful(DrainWindow(cfg, pend, narrow, calls).events, bad)
    decreases |pend|
  {
    if pend != [] {
      var n := GroupSize(cfg, pend, narrow, 0);
      if n > 0 {
        var group := pend[..n];
        if cfg.agg.rows(group) == 0 {
          WindowTruthful(cfg, pend[n..], narrow, calls, bad);
        } else if cfg.write(calls, group) {
          WindowTruthful(cfg, pend[n..], narrow, calls + 1, bad);
        }
      }
    }
  }

  lemma SettleTruthful(cfg: Config, s: Loop, w: Window, bad: set<nat>)
    requires w.removed <= |s.rows|
    requires Truthful(s.log, bad) && Truthful(w.events, bad)
    requires DropsJustified(Settle(cfg, s, w).log)
    ensures Truthful(Settle(cfg, s, w).log, bad)
  {
    JudgedTrue(s.log + w.events, Settle(cfg, s, w).log, bad);
  }

  /**
   The narrowing policy sorts the cache exactly: everything dropped is bad,
   everything delivered is good, and nothing else leaves with a payload.
   */
  lemma {:induction false} NarrowingSortsExactly(cfg: Config, rows: seq<SpoolBatch>, steps: seq<Step>, bad: set<nat>)
    requires cfg.Valid() && cfg.policy == Policy(true, true) && RefusesExactly(cfg, bad)
    requires Ordered(rows) && StoreAssignsIds(cfg, Fresh(rows), steps)
    ensures Truthful(Run(cfg, Fresh(rows), steps).log, bad)
    decreases |steps|
  {
    if steps != [] {
      var front := steps[..|steps| - 1];
      FrontAssignsIds(cfg, Fresh(rows), steps);
      NarrowingSortsExactly(cfg, rows, front, bad);
      var s := Run(cfg, Fresh(rows), front);
      if steps[|steps| - 1].DrainRound? && s.rows != [] {
        NoInnocentDropped(cfg, rows, steps);
        WindowTruthful(cfg, Oldest(s.rows), s.narrow, s.calls, bad);
        SettleTruthful(cfg, s, DrainWindow(cfg, Oldest(s.rows), s.narrow, s.calls), bad);
      }
    }
  }

  // ---- the cache changing under a window ----

  /** What the loop decides on is what it has fetched; the cache may have changed by then. */
  datatype Judge = Judge(poisonID: nat, narrow: bool, calls: nat, log: seq<Event>)

  /** One iteration as far as it depends on the fetched rows; Dropped is the verdict, whatever is left to delete. */
  function Judged(cfg: Config, j: Judge, pend: seq<SpoolBatch>): (k: Judge) {
    var w := DrainWindow(cfg, pend, j.narrow, j.calls);
    if w.ok then Judge(0, false, w.calls, j.log + w.events)
    else if cfg.policy.poison && j.poisonID == w.failID && w.removed < |pend| then
      Judge(0, j.narrow, w.calls, j.log + w.events + [Dropped(pend[w.removed])])
    else Judge(w.failID, j.narrow || cfg.policy.narrow, w.calls, j.log + w.events)
  }

  function JudgeRun(cfg: Config, fetched: seq<seq<SpoolBatch>>): (j: Judge) {
    if fetched == [] then Judge(0, false, 0, [])
    else Judged(cfg, JudgeRun(cfg, fetched[..|fetched| - 1]), fetched[|fetched| - 1])
  }

  /** An undisturbed round decides just that. */
  lemma RoundIsJudged(cfg: Config, s: Loop)
    requires cfg.Valid() && s.rows != []
    ensures var t := Round(cfg, s);
            Judge(t.poisonID, t.narrow, t.calls, t.log)
            == Judged(cfg, Judge(s.poisonID, s.narrow, s.calls, s.log), Oldest(s.rows))
  {
    WindowStops(cfg, Oldest(s.rows), s.narrow, s.calls);
    SettleIsJudged(cfg, s, DrainWindow(cfg, Oldest(s.rows), s.narrow, s.calls));
  }

  lemma SettleIsJudged(cfg: Config, s: Loop, w: Window)
    requires s.rows != [] && StopsRight(w, Oldest(s.rows), s.narrow)
    requires w == DrainWindow(cfg, Oldest(s.rows), s.narrow, s.calls)
    ensures var t := Settle(cfg, s, w);
            Judge(t.poisonID, t.narrow, t.calls, t.log)
            == Judged(cfg, Judge(s.poisonID, s.narrow, s.calls, s.log), Oldest(s.rows))
  {
    if !w.ok {
      assert Oldest(s.rows)[w.removed] == s.rows[w.removed] == s.rows[w.removed..][0];
    }
  }

  ghost predicate JudgesWell(cfg: Config, j: Judge) {
    && DropsJustified(j.log) && (cfg.policy.poison && j.poisonID != 0 ==> j.narrow)
    && (!cfg.policy.poison ==> DropFree(j.log))
  }

  lemma JudgedWell(cfg: Config, j: Judge, pend: seq<SpoolBatch>)
    requires cfg.Valid() && (cfg.policy.poison ==> cfg.policy.narrow)
    requires JudgesWell(cfg, j) && Ordered(pend)
    ensures JudgesWell(cfg, Judged(cfg, j, pend))
  {
    var w := DrainWindow(cfg, pend, j.narrow, j.calls);
    WindowStops(cfg, pend, j.narrow, j.calls);
    var base := j.log + w.events;
    assert DropsJustified(base);
    var k := Judged(cfg, j, pend);
    if k.log != base {
      assert j.poisonID == pend[w.removed].id && j.narrow;
      assert k.log[|base| - 1] == w.events[|w.events| - 1] == Rejected([pend[w.removed]]);
    }
  }

  /**
   Whatever the write loop, trimming and storage do to the cache, between rounds or in
   the middle of a window: with whatever rows the loop has fetched, a batch is judged
   poison only when the write of that one batch has just been rejected.
   */
  lemma {:induction false} VerdictsJustified(cfg: Config, fetched: seq<seq<SpoolBatch>>)
    requires cfg.Valid() && (cfg.policy.poison ==> cfg.policy.narrow)
    requires forall i :: 0 <= i < |fetched| ==> Ordered(fetched[i])
    ensures JudgesWell(cfg, JudgeRun(cfg, fetched))
    decreases |fetched|
  {
    if fetched != [] {
      VerdictsJustified(cfg, fetched[..|fetched| - 1]);
      JudgedWell(cfg, JudgeRun(cfg, fetched[..|fetched| - 1]), fetched[|fetched| - 1]);
    }
  }

  /** And against a downstream that refuses exactly payloads with a bad batch, only bad batches are judged poison. */
  lemma {:induction false} VerdictsTrue(cfg: Config, fetched: seq<seq<SpoolBatch>>, bad: set<nat>)
    requires cfg.Valid() && cfg.policy == Policy(true, true) && RefusesExactly(cfg, bad)
    requires forall i :: 0 <= i < |fetched| ==> Ordered(fetched[i])
    ensures Truthful(JudgeRun(cfg, fetched).log, bad)
    decreases |fetched|
  {
    if fetched != [] {
      var front, pend := fetched[..|fetched| - 1], fetched[|fetched| - 1];
      VerdictsTrue(cfg, front, bad);
      VerdictsJustified(cfg, fetched);
      var j := JudgeRun(cfg, front);
      WindowTruthful(cfg, pend, j.narrow, j.calls, bad);
      JudgedTrue(j.log + DrainWindow(cfg, pend, j.narrow, j.calls).events, JudgeRun(cfg, fetched).log, bad);
    }
  }

  lemma JudgedTrue(base: seq<Event>, log: seq<Event>, bad: set<nat>)
    requires Truthful(base, bad) && DropsJustified(log)
    requires log == base || (|log| == |base| + 1 && log[..|base|] == base && log[|base|].Dropped?)
    ensures Truthful(log, bad)
  {
    if log != base {
      assert base[|base| - 1] == log[|base| - 1] == Rejected([log[|base|].batch]);
      var b :| b in base[|base| - 1].group && b.id in bad;
    }
  }

  // ---- the policy without narrowing ----

  const ALL_IN_ONE: Aggregator := Aggregator((_, _) => true, (g: seq<SpoolBatch>) => |g|)

  /** The grouped policy: poison detection without narrowing, over a downstream that refuses batch 2. */
  function GroupedExample(): (cfg: Config) {
    Config(ALL_IN_ONE, 100, Policy(true, false),
           (_, g: seq<SpoolBatch>) => forall b | b in g :: b.id !in {2})
  }

  lemma GroupedExampleIsHealthy()
    ensures GroupedExample().Valid() && RefusesExactly(GroupedExample(), {2})
  {
  }

  const TWO_ROWS: seq<SpoolBatch> := [SpoolBatch(1, 1), SpoolBatch(2, 1)]

  lemma GroupedWindow(cfg: Config, calls: nat)
    requires cfg == GroupedExample()
    ensures DrainWindow(cfg, TWO_ROWS, false, calls) == Window([Rejected(TWO_ROWS)], 0, false, 1, calls + 1)
  {
    assert GroupSize(cfg, TWO_ROWS, false, 2) == 2;
    assert GroupSize(cfg, TWO_ROWS, false, 1) == 2;
    assert GroupSize(cfg, TWO_ROWS, false, 0) == 2;
    assert TWO_ROWS[..2] == TWO_ROWS;
    assert TWO_ROWS[1] in TWO_ROWS;
  }

  const AFTER_ONE: Loop := Loop(1, false, TWO_ROWS, 1, [Rejected(TWO_ROWS)])
  const GROUPED_LOG: seq<Event> := [Rejected(TWO_ROWS), Rejected(TWO_ROWS), Dropped(TWO_ROWS[0])]

  lemma GroupedRounds(cfg: Config)
    requires cfg == GroupedExample()
    ensures Round(cfg, Fresh(TWO_ROWS)) == AFTER_ONE
    ensures Round(cfg, AFTER_ONE).log == GROUPED_LOG
  {
    GroupedWindow(cfg, 0);
    GroupedWindow(cfg, 1);
    assert TWO_ROWS[0..] == TWO_ROWS;
    assert Oldest(TWO_ROWS) == TWO_ROWS;
  }

  lemma TwoRounds(cfg: Config, s: Loop)
    requires s.rows != [] && Round(cfg, s).rows != []
    ensures Run(cfg, s, Rounds(2)) == Round(cfg, Round(cfg, s))
  {
    assert Rounds(2)[..1] == Rounds(1) && Rounds(1)[..0] == Rounds(0);
    assert Run(cfg, s, Rounds(0)) == s;
    assert Run(cfg, s, Rounds(1)) == Round(cfg, s);
  }

  /** The good head is dropped although the downstream accepts it by itself. */
  lemma GroupedPolicyDropsInnocent()
    ensures Ordered(TWO_ROWS)
    ensures Run(GroupedExample(), Fresh(TWO_ROWS), Rounds(2)).log == GROUPED_LOG
    ensures GroupedExample().write(0, [TWO_ROWS[0]])
  {
    GroupedRounds(GroupedExample());
    TwoRounds(GroupedExample(), Fresh(TWO_ROWS));
  }

  lemma GroupedLogIsUnjust()
    ensures !DropsJustified(GROUPED_LOG)
    ensures !Truthful(GROUPED_LOG, {2})
  {
    assert GROUPED_LOG[2] == Dropped(TWO_ROWS[0]);
    assert GROUPED_LOG[1] == Rejected(TWO_ROWS) && |TWO_ROWS| == 2;
  }

  ghost predicate PolicySafe(policy: Policy) {
    forall cfg: Config, rows: seq<SpoolBatch>, steps: seq<Step> ::
      cfg.Valid() && cfg.policy == policy && Ordered(rows) && StoreAssignsIds(cfg, Fresh(rows), steps)
      ==> DropsJustified(Run(cfg, Fresh(rows), steps).log)
  }

  /** Exactly the policies that narrow whenever they detect poison never drop an innocent batch. */
  lemma PolicySafeExactly(policy: Policy)
    ensures PolicySafe(policy) <==> (policy.poison ==> policy.narrow)
  {
    if policy.poison && !policy.narrow {
      GroupedPolicyDropsInnocent();
      GroupedLogIsUnjust();
      GroupedExampleIsHealthy();
      var cfg := GroupedExample();
      assert StoreAssignsIds(cfg, Fresh(TWO_ROWS), Rounds(2));
      assert !DropsJustified(Run(cfg, Fresh(TWO_ROWS), Rounds(2)).log);
    } else {
      forall cfg: Config, rows: seq<SpoolBatch>, steps: seq<Step> |
        cfg.Valid() && cfg.policy == policy && Ordered(rows) && StoreAssignsIds(cfg, Fresh(rows), steps)
        ensures DropsJustified(Run(cfg, Fresh(rows), steps).log)
      {
        NoInnocentDropped(cfg, rows, steps);
      }
    }
  }

  // ---- the worker ----

  /** What a whole window amounts to once its first groups are dealt with. */
  function Resume(done: seq<Event>, removed: nat, rest: Window): (w: Window) {
    rest.(events := done + rest.events, removed := removed + rest.removed)
  }

  /** A drain under way: `done` has happened to the first `removed` rows, `rest` is still ahead. */
  ghost predicate UnderWay(cfg: Config, start: Loop, single: bool, whole: Window,
                           done: seq<Event>, removed: nat, rest: seq<SpoolBatch>, now: Loop)
  {
    && removed <= |start.rows| && now.rows == start.rows[removed..]
    && |rest| <= |now.rows| && rest == now.rows[..|rest|]
    && now.log == start.log + done
    && whole == Resume(done, removed, DrainWindow(cfg, rest, single, now.calls))
  }

  lemma UnderWayStep(cfg: Config, start: Loop, single: bool, whole: Window, done: seq<Event>, removed: nat,
                     rest: seq<SpoolBatch>, now: Loop, events: seq<Event>, taken: nat, next: Loop)
    requires UnderWay(cfg, start, single, whole, done, removed, rest, now)
    requires GroupSent(cfg, rest, single, now, next, false, 0, taken, events)
    requires next.log == now.log + events && next.rows == now.rows[taken..]
    ensures UnderWay(cfg, start, single, whole, done + events, removed + taken, rest[taken..], next)
  {
    var tail := DrainWindow(cfg, rest[taken..], single, next.calls);
    assert done + (events + tail.events) == (done + events) + tail.events;
    assert (start.log + done) + events == start.log + (done + events);
    assert start.rows[removed..][taken..] == start.rows[removed + taken..];
    assert now.rows[..|rest|][taken..] == now.rows[taken..][..|rest| - taken];
  }

  lemma UnderWayStops(cfg: Config, start: Loop, single: bool, whole: Window, done: seq<Event>, removed: nat,
                      rest: seq<SpoolBatch>, now: Loop, last: Window, next: Loop)
    requires UnderWay(cfg, start, single, whole, done, removed, rest, now)
    requires DrainWindow(cfg, rest, single, now.calls) == last && last.removed == 0
    requires next.log == now.log + last.events && next.rows == now.rows
    ensures whole == last.(events := done + last.events, removed := removed)
    ensures next.log == start.log + whole.events && next.rows == start.rows[whole.removed..]
  {
    assert (start.log + done) + last.events == start.log + (done + last.events);
  }

  /** What one pass of Drain's loop did, in terms of the window it belongs to. */
  ghost predicate GroupSent(cfg: Config, rest: seq<SpoolBatch>, single: bool, now: Loop, next: Loop,
                            stop: bool, failID: nat, taken: nat, events: seq<Event>)
  {
    var w := DrainWindow(cfg, rest, single, now.calls);
    if stop then
      w == Window(events, 0, false, failID, next.calls)
    else
      && 0 < taken <= |rest|
      && w == Resume(events, taken, DrainWindow(cfg, rest[taken..], single, next.calls))
  }

  class DrainWorker {
    const cfg: Config
    const spool: SqliteSpool
    var poisonID: nat
    var narrow: bool
    var calls: nat
    ghost var log: seq<Event>  // the history an observer sees

    ghost predicate Valid()
      reads this, spool
    {
      cfg.Valid() && spool.Valid()
    }

    ghost function State(): (s: Loop)
      reads this, spool
    {
      Loop(poisonID, narrow, spool.rows, calls, log)
    }

    constructor (cfg: Config, spool: SqliteSpool)
      requires cfg.Valid() && spool.Valid()
      ensures Valid() && State() == Fresh(spool.rows) && this.cfg == cfg && this.spool == spool
    {
      this.cfg, this.spool := cfg, spool;
      poisonID, narrow, calls, log := 0, false, 0, [];
    }

    /** The inner loop of Drain: grow one group until a limit or a conflict stops it. */
    method CollectGroup(rest: seq<SpoolBatch>, single: bool) returns (taken: nat)
      ensures taken == GroupSize(cfg, rest, single, 0)
    {
      taken := 0;
      while taken < |rest| && !(single && taken > 0)
            && !(!single && cfg.agg.rows(rest[..taken]) > 0
                 && cfg.agg.rows(rest[..taken]) + rest[taken].recordCount > cfg.maxRows)
            && cfg.agg.accepts(rest[..taken], rest[taken])
        invariant taken <= |rest|
        invariant GroupSize(cfg, rest, single, 0) == GroupSize(cfg, rest, single, taken)
      {
        taken := taken + 1;
      }
    }

    /** DeleteBatch of the group at the head of the cache. */
    method DeleteHead(n: nat)
      requires spool.Valid() && n <= |spool.rows|
      modifies spool
      ensures spool.Valid() && spool.rows == old(spool.rows)[n..]
    {
      var group := spool.rows[..n];
      WithoutPrefix(spool.rows, n);
      spool.DeleteBatch(set b <- group :: b.id);
    }

    /** One pass of the loop body of Drain: `stop` when the window ends with this group. */
    method SendGroup(rest: seq<SpoolBatch>, single: bool)
      returns (stop: bool, failID: nat, taken: nat, ghost events: seq<Event>)
      requires spool.Valid() && 0 < |rest| <= |spool.rows|
      modifies this`calls, this`log, spool
      ensures spool.Valid() && log == old(log) + events
      ensures GroupSent(cfg, rest, single, old(State()), State(), stop, failID, taken, events)
      ensures spool.rows == if stop then old(spool.rows) else old(spool.rows)[taken..]
    {
      taken := CollectGroup(rest, single);
      stop, failID, events := taken == 0, rest[0].id, [];
      if taken > 0 {
        var group := rest[..taken];
        if cfg.agg.rows(group) == 0 {
          events := [Unwritable(group)];
        } else {
          var accepted := cfg.write(calls, group);
          calls := calls + 1;
          stop := !accepted;
          events := [if accepted then Delivered(group) else Rejected(group)];
        }
      }
      log := log + events;
      if !stop {
        DeleteHead(taken);
      }
    }

    /** GroupedDrainer.Drain over the head of the cache. */
    method Drain(pend: seq<SpoolBatch>, single: bool) returns (ok: bool, failID: nat)
      requires spool.Valid() && |pend| <= |spool.rows| && pend == spool.rows[..|pend|]
      modifies this`calls, this`log, spool
      ensures spool.Valid()
      ensures var w := DrainWindow(cfg, pend, single, old(calls));
              && ok == w.ok && failID == w.failID && calls == w.calls
              && log == old(log) + w.events
              && spool.rows == old(spool.rows)[w.removed..]
    {
      ghost var start, whole := State(), DrainWindow(cfg, pend, single, calls);
      var rest := pend;
      ghost var done: seq<Event>, removed: nat := [], 0;
      while |rest| > 0
        invariant spool.Valid()
        invariant UnderWay(cfg, start, single, whole, done, removed, rest, State())
        decreases |rest|
      {
        ghost var now := State();
        var stop, failedID, taken;
        ghost var events;
        stop, failedID, taken, events := SendGroup(rest, single);
        if stop {
          UnderWayStops(cfg, start, single, whole, done, removed, rest, now,
                        Window(events, 0, false, failedID, calls), State());
          return false, failedID;
        }
        assert GroupSent(cfg, rest, single, now, State(), false, 0, taken, events);
        UnderWayStep(cfg, start, single, whole, done, removed, rest, now, events, taken, State());
        rest := rest[taken..];
        done, removed := done + events, removed + taken;
      }
      UnderWayStops(cfg, start, single, whole, done, removed, rest, State(), Window([], 0, true, 0, calls), State());
      return true, 0;
    }

    /** One pass of the loop body of DrainLoop while connected. */
    method DrainOnce()
      requires Valid() && spool.rows != []
      modifies this`poisonID, this`narrow, this`calls, this`log, spool
      ensures Valid() && State() == Round(cfg, old(State()))
    {
      ghost var before := State();
      var pend := spool.FetchOldest(DRAIN_WINDOW);
      assert pend == Oldest(spool.rows);
      WindowStops(cfg, pend, narrow, calls);
      var ok, failID := Drain(pend, narrow);
      if ok {
        poisonID, narrow := 0, false;
      } else if cfg.policy.poison && poisonID == failID {
        assert spool.rows != [] && failID == spool.rows[0].id;
        poisonID := 0;
        log := log + [Dropped(spool.rows[0])];
        DeleteHead(1);
      } else {
        poisonID := failID;
        narrow := narrow || cfg.policy.narrow;
      }
    }

    /** The loop over a cache nobody else touches: it ends, and the log accounts for every row. */
    method DrainUntilEmpty()
      requires Valid() && cfg.policy.poison && State() == Fresh(spool.rows)
      modifies this`poisonID, this`narrow, this`calls, this`log, spool
      ensures Valid() && spool.rows == [] && Removed(log) == old(spool.rows)
      ensures cfg.policy.narrow ==> DropsJustified(log)
    {
      assert Removed([]) + spool.rows == spool.rows;
      while spool.rows != []
        invariant Valid() && Removed(log) + spool.rows == old(spool.rows)
        invariant cfg.policy.narrow ==> Steady(cfg, State())
        decreases Rank(State())
      {
        RoundConserves(cfg, State());
        RoundProgresses(cfg, State());
        if cfg.policy.narrow {
          RoundKeepsSteady(cfg, State());
        }
        DrainOnce();
      }
    }
  }
}
