/**
 The alarm state machine of one target type over the shared alarm table
 (alarm/tracker.go): debounced raise, recovery on the first success, and rows that
 outlive the process.  Storage works.
 */
module Alarm {

  import opened Wrappers

  const DEFAULT_FAILURES: nat := 3
  const TOUCH_MIN_INTERVAL: nat := 5

  datatype Kind = Raise | Recover

  datatype Row = Row(target: string, kindOf: string, kind: Kind, active: bool, first: int, last: int)

  datatype DevState = DevState(normal: bool, failCount: nat, lastTouch: Option<int>, reconciled: bool)

  type States = map<string, DevState>

  const NEW_STATE := DevState(true, 0, None, false)

  /** `rows` is the table, shared by the trackers of all target types; `states` one tracker's memory. */
  datatype Store = Store(rows: seq<Row>, states: States)

  function Threshold(configured: int): (n: nat)
    ensures n > 0 && (configured > 0 ==> n == configured) && (configured <= 0 ==> n == 3)
  {
    if configured <= 0 then DEFAULT_FAILURES else configured
  }

  predicate Hits(r: Row, target: string, kindOf: string) {
    r.target == target && r.kindOf == kindOf && r.active
  }

  /** Number of active rows of a target. */
  function ActiveRows(rows: seq<Row>, target: string, kindOf: string): nat {
    if rows == [] then 0
    else ActiveRows(rows[..|rows| - 1], target, kindOf) + if Hits(rows[|rows| - 1], target, kindOf) then 1 else 0
  }

  /** UPDATE over the target's active rows. */
  function Updated(rows: seq<Row>, target: string, kindOf: string, clear: bool, now: int): (out: seq<Row>)
    ensures |out| == |rows|
  {
    if rows == [] then []
    else
      var r := rows[|rows| - 1];
      Updated(rows[..|rows| - 1], target, kindOf, clear, now)
      + [if !Hits(r, target, kindOf) then r else if clear then r.(active := false) else r.(last := now)]
  }

  function StateOf(states: States, target: string): DevState {
    if target in states then states[target] else NEW_STATE
  }

  function AfterSuccess(st: Store, target: string, kindOf: string, now: int): Store {
    var s := StateOf(st.states, target);
    if !s.normal then
      Store(Updated(st.rows, target, kindOf, true, now) + [Row(target, kindOf, Recover, false, now, now)],
            st.states[target := s.(normal := true, failCount := 0, reconciled := true)])
    else if !s.reconciled then
      Store(Updated(st.rows, target, kindOf, true, now), st.states[target := s.(failCount := 0, reconciled := true)])
    else Store(st.rows, st.states[target := s.(failCount := 0)])
  }

  /** raiseLocked: an active row left by an earlier process is taken over. */
  function Raised(rows: seq<Row>, target: string, kindOf: string, now: int): seq<Row> {
    if ActiveRows(rows, target, kindOf) > 0 then Updated(rows, target, kindOf, false, now)
    else rows + [Row(target, kindOf, Raise, true, now, now)]
  }

  function AfterFailure(st: Store, target: string, kindOf: string, threshold: nat, now: int): Store {
    var s := StateOf(st.states, target).(failCount := StateOf(st.states, target).failCount + 1);
    if !s.normal then
      if s.lastTouch.Some? && now - s.lastTouch.value < TOUCH_MIN_INTERVAL then
        Store(st.rows, st.states[target := s])
      else
        Store(Updated(st.rows, target, kindOf, false, now), st.states[target := s.(lastTouch := Some(now))])
    else if s.failCount >= threshold then
      Store(Raised(st.rows, target, kindOf, now),
            st.states[target := s.(normal := false, reconciled := true, lastTouch := Some(now))])
    else Store(st.rows, st.states[target := s])
  }

  function Reported(st: Store, target: string, kindOf: string, threshold: nat, ok: bool, now: int): Store {
    if ok then AfterSuccess(st, target, kindOf, now) else AfterFailure(st, target, kindOf, threshold, now)
  }

  // ----- The table -----

  lemma {:induction false} UpdatedAt(rows: seq<Row>, target: string, kindOf: string, clear: bool, now: int, i: nat)
    requires i < |rows|
    ensures Updated(rows, target, kindOf, clear, now)[i]
            == if !Hits(rows[i], target, kindOf) then rows[i]
               else if clear then rows[i].(active := false) else rows[i].(last := now)
  {
    if i < |rows| - 1 {
      UpdatedAt(rows[..|rows| - 1], target, kindOf, clear, now, i);
    }
  }

  lemma {:induction false} ClearedHasNone(rows: seq<Row>, target: string, kindOf: string, now: int)
    ensures ActiveRows(Updated(rows, target, kindOf, true, now), target, kindOf) == 0
  {
    if rows != [] {
      var n := |rows| - 1;
      ClearedHasNone(rows[..n], target, kindOf, now);
      var out := Updated(rows, target, kindOf, true, now);
      assert out[..n] == Updated(rows[..n], target, kindOf, true, now);
    }
  }

  lemma {:induction false} TouchedKeepsActive(rows: seq<Row>, target: string, kindOf: string, now: int)
    ensures ActiveRows(Updated(rows, target, kindOf, false, now), target, kindOf) == ActiveRows(rows, target, kindOf)
  {
    if rows != [] {
      var n := |rows| - 1;
      TouchedKeepsActive(rows[..n], target, kindOf, now);
      var out := Updated(rows, target, kindOf, false, now);
      assert out[..n] == Updated(rows[..n], target, kindOf, false, now);
    }
  }

  lemma {:induction false} OthersKeepActive(rows: seq<Row>, target: string, kindOf: string, clear: bool, now: int,
                                            other: string, otherKind: string)
    requires other != target || otherKind != kindOf
    ensures ActiveRows(Updated(rows, target, kindOf, clear, now), other, otherKind)
            == ActiveRows(rows, other, otherKind)
  {
    if rows != [] {
      var n := |rows| - 1;
      OthersKeepActive(rows[..n], target, kindOf, clear, now, other, otherKind);
      var out := Updated(rows, target, kindOf, clear, now);
      assert out[..n] == Updated(rows[..n], target, kindOf, clear, now);
    }
  }

  lemma OneMoreRow(rows: seq<Row>, r: Row, target: string, kindOf: string)
    ensures ActiveRows(rows + [r], target, kindOf)
            == ActiveRows(rows, target, kindOf) + if Hits(r, target, kindOf) then 1 else 0
  {
    assert (rows + [r])[..|rows|] == rows;
  }

  // ----- What every report keeps -----

  /** Memory and table of one target agree. */
  ghost predicate TargetOk(rows: seq<Row>, s: DevState, target: string, kindOf: string, threshold: nat) {
    && ActiveRows(rows, target, kindOf) <= 1
    && (s.normal ==> s.failCount < threshold && (s.reconciled ==> ActiveRows(rows, target, kindOf) == 0))
    && (!s.normal ==> s.reconciled && s.failCount >= threshold && ActiveRows(rows, target, kindOf) == 1)
  }

  /** The specification of one target: is an alarm active, and how long is the trailing run of failures. */
  datatype Spec = Spec(active: bool, failures: nat)

  function SpecReport(s: Spec, threshold: nat, ok: bool): Spec {
    if ok then Spec(false, 0) else Spec(s.active || s.failures + 1 >= threshold, s.failures + 1)
  }

  function View(st: Store, target: string, kindOf: string): Spec {
    Spec(ActiveRows(st.rows, target, kindOf) > 0, StateOf(st.states, target).failCount)
  }

  lemma SuccessRefines(st: Store, target: string, kindOf: string, threshold: nat, now: int)
    requires threshold > 0 && TargetOk(st.rows, StateOf(st.states, target), target, kindOf, threshold)
    ensures var t := AfterSuccess(st, target, kindOf, now);
            && TargetOk(t.rows, StateOf(t.states, target), target, kindOf, threshold)
            && View(t, target, kindOf) == Spec(false, 0)
  {
    var cleared := Updated(st.rows, target, kindOf, true, now);
    ClearedHasNone(st.rows, target, kindOf, now);
    OneMoreRow(cleared, Row(target, kindOf, Recover, false, now, now), target, kindOf);
  }

  lemma FailureRefines(st: Store, target: string, kindOf: string, threshold: nat, now: int)
    requires threshold > 0 && TargetOk(st.rows, StateOf(st.states, target), target, kindOf, threshold)
    ensures var t := AfterFailure(st, target, kindOf, threshold, now);
            && TargetOk(t.rows, StateOf(t.states, target), target, kindOf, threshold)
            && View(t, target, kindOf) == SpecReport(View(st, target, kindOf), threshold, false)
  {
    TouchedKeepsActive(st.rows, target, kindOf, now);
    OneMoreRow(st.rows, Row(target, kindOf, Raise, true, now, now), target, kindOf);
  }

  lemma SuccessIsLocal(st: Store, target: string, kindOf: string, now: int, other: string, otherKind: string)
    requires other != target || otherKind != kindOf
    ensures var t := AfterSuccess(st, target, kindOf, now);
            && ActiveRows(t.rows, other, otherKind) == ActiveRows(st.rows, other, otherKind)
            && (other != target ==> StateOf(t.states, other) == StateOf(st.states, other))
  {
    var cleared := Updated(st.rows, target, kindOf, true, now);
    OthersKeepActive(st.rows, target, kindOf, true, now, other, otherKind);
    OneMoreRow(cleared, Row(target, kindOf, Recover, false, now, now), other, otherKind);
  }

  lemma FailureIsLocal(st: Store, target: string, kindOf: string, threshold: nat, now: int,
                       other: string, otherKind: string)
    requires other != target || otherKind != kindOf
    ensures var t := AfterFailure(st, target, kindOf, threshold, now);
            && ActiveRows(t.rows, other, otherKind) == ActiveRows(st.rows, other, otherKind)
            && (other != target ==> StateOf(t.states, other) == StateOf(st.states, other))
  {
    OthersKeepActive(st.rows, target, kindOf, false, now, other, otherKind);
    OneMoreRow(st.rows, Row(target, kindOf, Raise, true, now, now), other, otherKind);
  }

  predicate Own(r: Row, target: string, kindOf: string) {
    r.target == target && r.kindOf == kindOf
  }

  /** Rows of other targets and other target types are never touched; what is added is the target's own. */
  ghost predicate OnlyOwnChange(before: seq<Row>, after: seq<Row>, target: string, kindOf: string) {
    && |before| <= |after|
    && (forall i :: 0 <= i < |before| && !Own(before[i], target, kindOf) ==> after[i] == before[i])
    && (forall i :: 0 <= i < |after| && (i >= |before| || Own(before[i], target, kindOf)) ==>
          Own(after[i], target, kindOf))
  }

  lemma UpdatedIsOwn(rows: seq<Row>, target: string, kindOf: string, clear: bool, now: int)
    ensures OnlyOwnChange(rows, Updated(rows, target, kindOf, clear, now), target, kindOf)
  {
    forall i | 0 <= i < |rows|
      ensures !Own(rows[i], target, kindOf) ==> Updated(rows, target, kindOf, clear, now)[i] == rows[i]
      ensures Own(rows[i], target, kindOf) ==> Own(Updated(rows, target, kindOf, clear, now)[i], target, kindOf)
    {
      UpdatedAt(rows, target, kindOf, clear, now, i);
    }
  }

  lemma ReportTouchesOnlyOwn(st: Store, target: string, kindOf: string, threshold: nat, ok: bool, now: int)
    ensures OnlyOwnChange(st.rows, Reported(st, target, kindOf, threshold, ok, now).rows, target, kindOf)
  {
    UpdatedIsOwn(st.rows, target, kindOf, true, now);
    UpdatedIsOwn(st.rows, target, kindOf, false, now);
  }

  /** A recovery is only ever recorded for an alarm that was active. */
  lemma RecoversOnlyWhatWasRaised(st: Store, target: string, kindOf: string, threshold: nat, now: int)
    requires TargetOk(st.rows, StateOf(st.states, target), target, kindOf, threshold)
    ensures |AfterSuccess(st, target, kindOf, now).rows| > |st.rows| ==> ActiveRows(st.rows, target, kindOf) == 1
    ensures |AfterSuccess(st, target, kindOf, now).rows| > |st.rows| <==> !StateOf(st.states, target).normal
  {
  }

  /** What the first failure that makes a target abnormal, and those after it, do to the table. */
  lemma FailureWrites(st: Store, target: string, kindOf: string, threshold: nat, now: int)
    ensures var s, after := StateOf(st.states, target), AfterFailure(st, target, kindOf, threshold, now);
            && (s.normal && s.failCount + 1 < threshold ==> after.rows == st.rows)
            && (s.normal && s.failCount + 1 >= threshold ==>
                  && StateOf(after.states, target).lastTouch == Some(now)
                  && if ActiveRows(st.rows, target, kindOf) > 0 then Touched(st.rows, after.rows, target, kindOf, now)
                     else after.rows == st.rows + [Row(target, kindOf, Raise, true, now, now)])
            && (!s.normal ==>
                  if s.lastTouch.Some? && now - s.lastTouch.value < TOUCH_MIN_INTERVAL then after.rows == st.rows
                  else Touched(st.rows, after.rows, target, kindOf, now)
                       && StateOf(after.states, target).lastTouch == Some(now))
  {
    TouchedIsUpdated(st.rows, target, kindOf, now);
  }

  /** Exactly the active rows of the target have a new time of last occurrence. */
  ghost predicate Touched(before: seq<Row>, after: seq<Row>, target: string, kindOf: string, now: int) {
    && |after| == |before|
    && forall i :: 0 <= i < |before| ==>
         after[i] == if Hits(before[i], target, kindOf) then before[i].(last := now) else before[i]
  }

  lemma TouchedIsUpdated(rows: seq<Row>, target: string, kindOf: string, now: int)
    ensures Touched(rows, Updated(rows, target, kindOf, false, now), target, kindOf, now)
  {
    forall i | 0 <= i < |rows|
      ensures Updated(rows, target, kindOf, false, now)[i]
              == if Hits(rows[i], target, kindOf) then rows[i].(last := now) else rows[i]
    {
      UpdatedAt(rows, target, kindOf, false, now, i);
    }
  }

  /** What a success does to the table: a judged alarm is closed with a record of the recovery, an inherited one silently. */
  lemma SuccessWrites(st: Store, target: string, kindOf: string, now: int)
    ensures var s, after := StateOf(st.states, target), AfterSuccess(st, target, kindOf, now);
            && |after.rows| == |st.rows| + (if s.normal then 0 else 1)
            && (!s.normal ==> after.rows[|st.rows|] == Row(target, kindOf, Recover, false, now, now))
            && (s.normal && s.reconciled ==> after.rows == st.rows)
            && forall i :: 0 <= i < |st.rows| ==>
                 after.rows[i] == if Hits(st.rows[i], target, kindOf) && !(s.normal && s.reconciled)
                                  then st.rows[i].(active := false) else st.rows[i]
  {
    forall i | 0 <= i < |st.rows|
      ensures Updated(st.rows, target, kindOf, true, now)[i]
              == if Hits(st.rows[i], target, kindOf) then st.rows[i].(active := false) else st.rows[i]
    {
      UpdatedAt(st.rows, target, kindOf, true, now, i);
    }
  }

  // ----- All trackers over one table, through restarts -----

  datatype Action =
    | Report(kindOf: string, target: string, ok: bool, now: int)
    | Reset(kindOf: string, target: string)
    | ClearActive(kindOf: string, target: string, now: int)
    | Restart

  /** One tracker per target type. */
  datatype System = System(rows: seq<Row>, trackers: map<string, States>, threshold: string -> nat)

  function Part(s: System, kindOf: string): Store {
    Store(s.rows, if kindOf in s.trackers then s.trackers[kindOf] else map[])
  }

  function WithPart(s: System, kindOf: string, st: Store): System {
    s.(rows := st.rows, trackers := s.trackers[kindOf := st.states])
  }

  function Step(s: System, a: Action): System {
    match a
    case Report(kindOf, target, ok, now) =>
      WithPart(s, kindOf, Reported(Part(s, kindOf), target, kindOf, s.threshold(kindOf), ok, now))
    case Reset(kindOf, target) => WithPart(s, kindOf, Part(s, kindOf).(states := Part(s, kindOf).states - {target}))
    case ClearActive(kindOf, target, now) =>
      WithPart(s, kindOf, Store(Updated(s.rows, target, kindOf, true, now), Part(s, kindOf).states - {target}))
    case Restart => s.(trackers := map[])
  }

  function Run(threshold: string -> nat, actions: seq<Action>): System {
    if actions == [] then System([], map[], threshold)
    else Step(Run(threshold, actions[..|actions| - 1]), actions[|actions| - 1])
  }

  /** What the actions say about one target. */
  function SpecRun(threshold: string -> nat, actions: seq<Action>, kindOf: string, target: string): Spec {
    if actions == [] then Spec(false, 0)
    else
      var s := SpecRun(threshold, actions[..|actions| - 1], kindOf, target);
      match actions[|actions| - 1]
      case Report(k, t, ok, _) => if k == kindOf && t == target then SpecReport(s, threshold(kindOf), ok) else s
      case Reset(k, t) => if k == kindOf && t == target then s.(failures := 0) else s
      case ClearActive(k, t, _) => if k == kindOf && t == target then Spec(false, 0) else s
      case Restart => s.(failures := 0)
  }

  /** The tracker of kindOf is right about target. */
  ghost predicate Right(s: System, kindOf: string, target: string, spec: Spec) {
    && TargetOk(s.rows, StateOf(Part(s, kindOf).states, target), target, kindOf, s.threshold(kindOf))
    && View(Part(s, kindOf), target, kindOf) == spec
  }

  /** A tracker's step seen from its own target, and from any other. */
  lemma SeenFrom(s: System, mine: string, st: Store, kindOf: string, target: string, spec: Spec)
    requires mine == kindOf ==> TargetOk(st.rows, StateOf(st.states, target), target, kindOf, s.threshold(kindOf))
    requires mine == kindOf ==> View(st, target, kindOf) == spec
    requires mine != kindOf ==> Right(s, kindOf, target, spec)
    requires mine != kindOf ==> ActiveRows(st.rows, target, kindOf) == ActiveRows(s.rows, target, kindOf)
    ensures Right(WithPart(s, mine, st), kindOf, target, spec)
  {
  }

  lemma OwnReport(s: System, kindOf: string, target: string, ok: bool, now: int, spec: Spec)
    requires s.threshold(kindOf) > 0 && Right(s, kindOf, target, spec)
    ensures Right(WithPart(s, kindOf, Reported(Part(s, kindOf), target, kindOf, s.threshold(kindOf), ok, now)), kindOf, target,
                  SpecReport(spec, s.threshold(kindOf), ok))
  {
    var st := Part(s, kindOf);
    if ok {
      SuccessRefines(st, target, kindOf, s.threshold(kindOf), now);
      SeenFrom(s, kindOf, AfterSuccess(st, target, kindOf, now), kindOf, target, Spec(false, 0));
    } else {
      FailureRefines(st, target, kindOf, s.threshold(kindOf), now);
      SeenFrom(s, kindOf, AfterFailure(st, target, kindOf, s.threshold(kindOf), now), kindOf, target,
               SpecReport(spec, s.threshold(kindOf), false));
    }
  }

  lemma ForeignReport(s: System, mine: string, about: string, ok: bool, now: int,
                      kindOf: string, target: string, spec: Spec)
    requires Right(s, kindOf, target, spec) && (mine != kindOf || about != target)
    ensures Right(WithPart(s, mine, Reported(Part(s, mine), about, mine, s.threshold(mine), ok, now)), kindOf, target, spec)
  {
    var st := Part(s, mine);
    if ok {
      SuccessIsLocal(st, about, mine, now, target, kindOf);
      SeenFrom(s, mine, AfterSuccess(st, about, mine, now), kindOf, target, spec);
    } else {
      FailureIsLocal(st, about, mine, s.threshold(mine), now, target, kindOf);
      SeenFrom(s, mine, AfterFailure(st, about, mine, s.threshold(mine), now), kindOf, target, spec);
    }
  }

  lemma ReportStep(s: System, a: Action, kindOf: string, target: string, spec: Spec)
    requires s.threshold(kindOf) > 0 && a.Report? && Right(s, kindOf, target, spec)
    ensures Right(Step(s, a), kindOf, target,
                  if a.kindOf == kindOf && a.target == target then SpecReport(spec, s.threshold(kindOf), a.ok) else spec)
  {
    if a.kindOf == kindOf && a.target == target {
      OwnReport(s, kindOf, target, a.ok, a.now, spec);
    } else {
      ForeignReport(s, a.kindOf, a.target, a.ok, a.now, kindOf, target, spec);
    }
  }

  lemma OtherStep(s: System, a: Action, kindOf: string, target: string, spec: Spec)
    requires s.threshold(kindOf) > 0 && !a.Report? && Right(s, kindOf, target, spec)
    ensures Right(Step(s, a), kindOf, target,
                  match a
                  case Restart => spec.(failures := 0)
                  case Reset(k, t) => if k == kindOf && t == target then spec.(failures := 0) else spec
                  case ClearActive(k, t, _) => if k == kindOf && t == target then Spec(false, 0) else spec
                  case _ => spec)
  {
    if a.ClearActive? {
      ClearedHasNone(s.rows, a.target, a.kindOf, a.now);
      if a.kindOf != kindOf || a.target != target {
        OthersKeepActive(s.rows, a.target, a.kindOf, true, a.now, target, kindOf);
      }
    }
  }

  /**
   Over all runs of reports, resets, administrative clears and restarts of any
   number of targets and target types: a target has an active alarm, and then
   exactly one, precisely when the specification says so.
   */
  lemma {:induction false} TrackersRefineSpec(threshold: string -> nat, actions: seq<Action>, kindOf: string, target: string)
    requires threshold(kindOf) > 0
    ensures var s, spec := Run(threshold, actions), SpecRun(threshold, actions, kindOf, target);
            && s.threshold == threshold && Right(s, kindOf, target, spec)
            && ActiveRows(s.rows, target, kindOf) == if spec.active then 1 else 0
  {
    if actions != [] {
      var front, a := actions[..|actions| - 1], actions[|actions| - 1];
      TrackersRefineSpec(threshold, front, kindOf, target);
      var s, spec := Run(threshold, front), SpecRun(threshold, front, kindOf, target);
      if a.Report? {
        ReportStep(s, a, kindOf, target, spec);
      } else {
        OtherStep(s, a, kindOf, target, spec);
      }
    }
  }

  // ----- Two trackers of one target type -----

  /** A report to the first or the second tracker about one target of one type. */
  datatype Said = Said(first: bool, ok: bool, now: int)

  /** The memories of both, over one table. */
  datatype Pair = Pair(rows: seq<Row>, first: States, second: States)

  function PairRun(said: seq<Said>, target: string, kindOf: string, threshold: nat): Pair {
    if said == [] then Pair([], map[], map[])
    else
      var p, r := PairRun(said[..|said| - 1], target, kindOf, threshold), said[|said| - 1];
      var st := Reported(Store(p.rows, if r.first then p.first else p.second), target, kindOf, threshold, r.ok, r.now);
      if r.first then p.(rows := st.rows, first := st.states) else p.(rows := st.rows, second := st.states)
  }

  /** The first tracker is told of n failures in a row. */
  function Failures(n: nat): seq<Said> {
    seq(n, i => Said(true, false, 0))
  }

  lemma PairStep(said: seq<Said>, r: Said, target: string, kindOf: string, threshold: nat)
    ensures var p, t := PairRun(said, target, kindOf, threshold), PairRun(said + [r], target, kindOf, threshold);
            var st := Reported(Store(p.rows, if r.first then p.first else p.second), target, kindOf, threshold, r.ok, r.now);
            t == if r.first then p.(rows := st.rows, first := st.states) else p.(rows := st.rows, second := st.states)
  {
    assert (said + [r])[..|said|] == said;
  }

  /** The store of a tracker that has been told of n failures and of nothing else. */
  function AfterFailures(n: nat, target: string, kindOf: string, threshold: nat): Store {
    if n == 0 then Store([], map[])
    else if n < threshold then Store([], map[target := DevState(true, n, None, false)])
    else Store([Row(target, kindOf, Raise, true, 0, 0)], map[target := DevState(false, n, Some(0), true)])
  }

  lemma OneMoreFailure(n: nat, target: string, kindOf: string, threshold: nat)
    requires n < threshold
    ensures AfterFailure(AfterFailures(n, target, kindOf, threshold), target, kindOf, threshold, 0)
            == AfterFailures(n + 1, target, kindOf, threshold)
  {
    var row := Row(target, kindOf, Raise, true, 0, 0);
    assert Raised([], target, kindOf, 0) == [row];
  }

  lemma {:induction false} FailingRaises(n: nat, target: string, kindOf: string, threshold: nat)
    requires n <= threshold
    ensures var p, st := PairRun(Failures(n), target, kindOf, threshold), AfterFailures(n, target, kindOf, threshold);
            p == Pair(st.rows, st.states, map[])
  {
    if n > 0 {
      FailingRaises(n - 1, target, kindOf, threshold);
      assert Failures(n) == Failures(n - 1) + [Said(true, false, 0)];
      PairStep(Failures(n - 1), Said(true, false, 0), target, kindOf, threshold);
      OneMoreFailure(n - 1, target, kindOf, threshold);
    }
  }

  lemma {:induction false} NeverRaisedAgain(said: seq<Said>, n: nat, target: string, kindOf: string, threshold: nat)
    requires var p := PairRun(said, target, kindOf, threshold);
             ActiveRows(p.rows, target, kindOf) == 0 && !StateOf(p.first, target).normal
    ensures var p := PairRun(said + Failures(n), target, kindOf, threshold);
            && ActiveRows(p.rows, target, kindOf) == 0
            && !StateOf(p.first, target).normal
            && StateOf(p.first, target).failCount == StateOf(PairRun(said, target, kindOf, threshold).first, target).failCount + n
  {
    if n == 0 {
      assert said + Failures(0) == said;
    } else {
      NeverRaisedAgain(said, n - 1, target, kindOf, threshold);
      assert said + Failures(n) == (said + Failures(n - 1)) + [Said(true, false, 0)];
      PairStep(said + Failures(n - 1), Said(true, false, 0), target, kindOf, threshold);
      TouchedKeepsActive(PairRun(said + Failures(n - 1), target, kindOf, threshold).rows, target, kindOf, 0);
    }
  }

  /**
   Two trackers must not share a target type, whatever the threshold: once the first
   has raised an alarm, a single success told to the second clears it behind its
   back, and however often the first is told of failures after that, none is active.
   */
  lemma SharedTypeBreaks(target: string, kindOf: string, threshold: nat, more: nat)
    requires threshold > 0
    ensures var p := PairRun(Failures(threshold) + [Said(false, true, 0)] + Failures(more), target, kindOf, threshold);
            && StateOf(p.first, target).failCount == threshold + more && !StateOf(p.first, target).normal
            && ActiveRows(p.rows, target, kindOf) == 0
  {
    FailingRaises(threshold, target, kindOf, threshold);
    PairStep(Failures(threshold), Said(false, true, 0), target, kindOf, threshold);
    ClearedHasNone(PairRun(Failures(threshold), target, kindOf, threshold).rows, target, kindOf, 0);
    NeverRaisedAgain(Failures(threshold) + [Said(false, true, 0)], more, target, kindOf, threshold);
  }

  /**
   ClearActive forgets the state first and clears the row afterwards.  Whatever is
   reported in between, the clearing half is harmless exactly when the target has
   not been judged abnormal again.
   */
  lemma LateClearIsSafeExactly(rows: seq<Row>, s: DevState, target: string, kindOf: string, threshold: nat, now: int)
    requires TargetOk(rows, s, target, kindOf, threshold)
    ensures TargetOk(Updated(rows, target, kindOf, true, now), s, target, kindOf, threshold) <==> s.normal
  {
    ClearedHasNone(rows, target, kindOf, now);
  }

  // ----- The tracker itself -----

  class Table {
    var rows: seq<Row>

    constructor ()
      ensures rows == []
    {
      rows := [];
    }

    method UpdateActive(target: string, kindOf: string, clear: bool, now: int)
      modifies this
      ensures rows == Updated(old(rows), target, kindOf, clear, now)
    {
      var out := [];
      assert rows[..0] == [];
      for i := 0 to |rows|
        invariant rows == old(rows) && out == Updated(rows[..i], target, kindOf, clear, now)
      {
        assert rows[..i + 1][..i] == rows[..i];
        var r := rows[i];
        if Hits(r, target, kindOf) {
          r := if clear then r.(active := false) else r.(last := now);
        }
        out := out + [r];
      }
      assert rows[..|rows|] == rows;
      rows := out;
    }

    method HasActive(target: string, kindOf: string) returns (found: bool)
      ensures found <==> ActiveRows(rows, target, kindOf) > 0
    {
      assert rows[..0] == [];
      for i := 0 to |rows|
        invariant ActiveRows(rows[..i], target, kindOf) == 0
      {
        assert rows[..i + 1][..i] == rows[..i];
        if Hits(rows[i], target, kindOf) {
          ActiveInPrefix(rows, i + 1, target, kindOf);
          return true;
        }
      }
      assert rows[..|rows|] == rows;
      return false;
    }
  }

  lemma {:induction false} ActiveInPrefix(rows: seq<Row>, n: nat, target: string, kindOf: string)
    requires n <= |rows|
    ensures ActiveRows(rows[..n], target, kindOf) <= ActiveRows(rows, target, kindOf)
  {
    if n == |rows| {
      assert rows[..n] == rows;
    } else {
      ActiveInPrefix(rows[..|rows| - 1], n, target, kindOf);
      assert rows[..|rows| - 1][..n] == rows[..n];
    }
  }

  class Tracker {
    const kindOf: string
    const consecutiveFailures: int
    const db: Table
    var states: States

    constructor (db: Table, kindOf: string, consecutiveFailures: int)
      ensures this.db == db && this.kindOf == kindOf && this.consecutiveFailures == consecutiveFailures
      ensures states == map[]
    {
      this.db, this.kindOf, this.consecutiveFailures, states := db, kindOf, consecutiveFailures, map[];
    }

    function Now(): Store
      reads this, db
    {
      Store(db.rows, states)
    }

    method Report(target: string, ok: bool, now: int)
      modifies this, db
      ensures Now() == Reported(old(Now()), target, kindOf, Threshold(consecutiveFailures), ok, now)
    {
      var st := StateOf(states, target);
      if ok {
        ReportOk(target, st, now);
      } else {
        ReportFailed(target, st.(failCount := st.failCount + 1), now);
      }
    }

    method ReportOk(target: string, st: DevState, now: int)
      requires st == StateOf(states, target)
      modifies this, db
      ensures Now() == AfterSuccess(old(Now()), target, kindOf, now)
    {
      if !st.normal {
        db.UpdateActive(target, kindOf, true, now);
        db.rows := db.rows + [Row(target, kindOf, Recover, false, now, now)];
        states := states[target := st.(normal := true, failCount := 0, reconciled := true)];
      } else if !st.reconciled {
        db.UpdateActive(target, kindOf, true, now);
        states := states[target := st.(failCount := 0, reconciled := true)];
      } else {
        states := states[target := st.(failCount := 0)];
      }
    }

    method ReportFailed(target: string, st: DevState, now: int)
      requires StateOf(states, target) == st.(failCount := StateOf(states, target).failCount)
      requires st.failCount == StateOf(states, target).failCount + 1
      modifies this, db
      ensures Now() == AfterFailure(old(Now()), target, kindOf, Threshold(consecutiveFailures), now)
    {
      if !st.normal {
        if st.lastTouch.Some? && now - st.lastTouch.value < TOUCH_MIN_INTERVAL {
          states := states[target := st];
          return;
        }
        states := states[target := st.(lastTouch := Some(now))];
        db.UpdateActive(target, kindOf, false, now);
        return;
      }
      if st.failCount < Threshold(consecutiveFailures) {
        states := states[target := st];
        return;
      }
      states := states[target := st.(normal := false, reconciled := true, lastTouch := Some(now))];
      var existing := db.HasActive(target, kindOf);
      if existing {
        db.UpdateActive(target, kindOf, false, now);
      } else {
        db.rows := db.rows + [Row(target, kindOf, Raise, true, now, now)];
      }
    }

    method Reset(target: string)
      modifies this
      ensures states == old(states) - {target}
    {
      states := states - {target};
    }

    method ClearActive(target: string, now: int)
      modifies this, db
      ensures Now() == Store(Updated(old(db.rows), target, kindOf, true, now), old(states) - {target})
    {
      Reset(target);
      db.UpdateActive(target, kindOf, true, now);
    }
  }
}
