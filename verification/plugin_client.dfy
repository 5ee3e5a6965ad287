/**
 Request multiplexing over one plugin connection (pluginhost/client.go): calls by
 correlation id, one reader, late replies, and failure at any moment.  Every
 critical section and every channel operation is a step.
 */
module PluginClient {

  import opened Wrappers

  /** `no` numbers the frames in the order they arrive. */
  datatype Frame = Frame(id: nat, no: nat)

  datatype Ending = Answered(f: Frame) | TimedOut | Canceled | Down

  datatype Progress = Fresh | Registered | Waiting | Ended(how: Ending)

  /** `inbox` is the call's own channel of capacity one. */
  datatype Call = Call(id: nat, at: Progress, inbox: Option<Frame>)

  /** The read loop between taking a waiter off the table and handing the frame over. */
  datatype Reader = Reading | Delivering(f: Frame, to: nat)

  datatype State = State(calls: seq<Call>, pending: map<nat, nat>, reader: Reader, arrived: nat,
                         failing: bool, closed: bool, timeoutStreak: nat)

  datatype Action =
    | Begin
    | Register(i: nat)
    | Sent(i: nat, ok: bool)
    | Arrive(id: nat)
    | Deliver
    | Take(i: nat)
    | GiveUp(i: nat, deadline: bool)
    | SeeClosed(i: nat)
    | FailClear
    | FailClose

  function Initial(): State {
    State([], map[], Reading, 0, false, false, 0)
  }

  predicate IsAt(s: State, i: nat, at: Progress) {
    i < |s.calls| && s.calls[i].at == at
  }

  predicate Enabled(s: State, a: Action) {
    match a
    case Begin => true
    case Register(i) => IsAt(s, i, Fresh)
    case Sent(i, _) => IsAt(s, i, Registered)
    case Arrive(_) => s.reader.Reading?
    case Deliver => s.reader.Delivering? && s.reader.to < |s.calls| && s.calls[s.reader.to].inbox.None?
    case Take(i) => IsAt(s, i, Waiting) && s.calls[i].inbox.Some?
    case GiveUp(i, _) => IsAt(s, i, Waiting)
    case SeeClosed(i) => IsAt(s, i, Waiting) && s.closed
    case FailClear => !s.failing
    case FailClose => s.failing && !s.closed
  }

  function Put(s: State, i: nat, c: Call): State
    requires i < |s.calls|
  {
    s.(calls := s.calls[i := c])
  }

  /** The call ends and takes itself off the table. */
  function End(s: State, i: nat, how: Ending): State
    requires i < |s.calls|
  {
    Put(s, i, s.calls[i].(at := Ended(how))).(pending := s.pending - {s.calls[i].id})
  }

  function Step(s: State, a: Action): State
    requires Enabled(s, a)
  {
    match a
    case Begin => s.(calls := s.calls + [Call(|s.calls| + 1, Fresh, None)])
    case Register(i) =>
      if s.closed then Put(s, i, s.calls[i].(at := Ended(Down)))
      else Put(s, i, s.calls[i].(at := Registered)).(pending := s.pending[s.calls[i].id := i])
    case Sent(i, ok) =>
      if ok && !s.closed then Put(s, i, s.calls[i].(at := Waiting)) else End(s, i, Down)
    case Arrive(id) =>
      var t := s.(arrived := s.arrived + 1);
      if id == 0 || id !in s.pending then t
      else t.(pending := s.pending - {id}, reader := Delivering(Frame(id, s.arrived), s.pending[id]))
    case Deliver =>
      Put(s, s.reader.to, s.calls[s.reader.to].(inbox := Some(s.reader.f))).(reader := Reading)
    case Take(i) =>
      Put(s, i, s.calls[i].(at := Ended(Answered(s.calls[i].inbox.value)), inbox := None)).(timeoutStreak := 0)
    case GiveUp(i, deadline) =>
      End(s, i, if deadline then TimedOut else Canceled).(
        timeoutStreak := s.timeoutStreak + if deadline then 1 else 0)
    case SeeClosed(i) => End(s, i, Down)
    case FailClear => s.(failing := true, pending := map[])
    case FailClose => s.(closed := true)
  }

  // ----- What every step keeps -----

  /** The frames a call has in its hands. */
  function Held(c: Call): Option<Frame> {
    if c.inbox.Some? then c.inbox
    else if c.at.Ended? && c.at.how.Answered? then Some(c.at.how.f)
    else None
  }

  ghost predicate CallOk(s: State, i: nat)
    requires i < |s.calls|
  {
    var c := s.calls[i];
    && c.id == i + 1
    && (Held(c).Some? ==> Held(c).value.id == c.id && Held(c).value.no < s.arrived && c.id !in s.pending)
    && (c.inbox.Some? ==> !(c.at.Ended? && c.at.how.Answered?))
    && (c.at.Fresh? ==> Held(c).None? && c.id !in s.pending)
  }

  ghost predicate CallsOk(s: State) {
    forall i :: 0 <= i < |s.calls| ==> CallOk(s, i)
  }

  /** Every entry of the table names the call that owns the id. */
  ghost predicate PendingOk(s: State) {
    forall id :: id in s.pending ==> s.pending[id] < |s.calls| && id == s.pending[id] + 1
  }

  ghost predicate ReaderOk(s: State) {
    s.reader.Delivering? ==>
      && s.reader.to < |s.calls| && s.reader.f.id == s.calls[s.reader.to].id
      && s.reader.f.no < s.arrived && s.reader.f.id !in s.pending
      && Held(s.calls[s.reader.to]).None? && !s.calls[s.reader.to].at.Fresh?
      && forall j :: 0 <= j < |s.calls| && Held(s.calls[j]).Some? ==> Held(s.calls[j]).value.no != s.reader.f.no
  }

  /** No frame is in two hands. */
  ghost predicate FramesApart(calls: seq<Call>) {
    forall i, j :: 0 <= i < j < |calls| && Held(calls[i]).Some? && Held(calls[j]).Some? ==>
      Held(calls[i]).value.no != Held(calls[j]).value.no
  }

  ghost predicate Inv(s: State) {
    CallsOk(s) && PendingOk(s) && ReaderOk(s) && FramesApart(s.calls)
  }

  /** A call changes its progress but not what it holds. */
  lemma ProgressKeeps(s: State, t: State, i: nat)
    requires Inv(s) && i < |s.calls| && t.reader == s.reader && t.arrived == s.arrived
    requires |t.calls| == |s.calls| && t.calls == s.calls[i := t.calls[i]] && t.calls[i].id == s.calls[i].id && !t.calls[i].at.Fresh?
    requires Held(t.calls[i]) == Held(s.calls[i]) && t.calls[i].inbox == s.calls[i].inbox
    requires !(t.calls[i].at.Ended? && t.calls[i].at.how.Answered?) || t.calls[i].at == s.calls[i].at
    requires forall id :: id in t.pending ==>
               || (id in s.pending && t.pending[id] == s.pending[id])
               || (id == s.calls[i].id && t.pending[id] == i && s.calls[i].at.Fresh?)
    ensures Inv(t)
  {
    assert CallOk(s, i);
    if s.reader.Delivering? {
      assert CallOk(s, s.reader.to);
    }
    forall j | 0 <= j < |t.calls|
      ensures CallOk(t, j)
    {
      assert CallOk(s, j);
    }
  }

  lemma BeginKeeps(s: State)
    requires Inv(s)
    ensures Inv(Step(s, Begin))
  {
    var t := Step(s, Begin);
    forall j | 0 <= j < |t.calls|
      ensures CallOk(t, j)
    {
      if j < |s.calls| {
        assert CallOk(s, j);
      }
    }
  }

  lemma ArriveKeeps(s: State, id: nat)
    requires Inv(s) && Enabled(s, Arrive(id))
    ensures Inv(Step(s, Arrive(id)))
  {
    var t := Step(s, Arrive(id));
    forall j | 0 <= j < |t.calls|
      ensures CallOk(t, j)
    {
      assert CallOk(s, j);
    }
    if id in s.pending {
      assert CallOk(s, s.pending[id]);
      forall j | 0 <= j < |s.calls| && Held(s.calls[j]).Some?
        ensures Held(s.calls[j]).value.no != s.arrived
      {
        assert CallOk(s, j);
      }
    }
  }

  lemma DeliverKeeps(s: State)
    requires Inv(s) && Enabled(s, Deliver)
    ensures Inv(Step(s, Deliver))
  {
    var t := Step(s, Deliver);
    forall j | 0 <= j < |t.calls|
      ensures CallOk(t, j)
    {
      assert CallOk(s, j);
    }
  }

  lemma TakeKeeps(s: State, i: nat)
    requires Inv(s) && Enabled(s, Take(i))
    ensures Inv(Step(s, Take(i)))
  {
    var t := Step(s, Take(i));
    assert CallOk(s, i);
    assert Held(t.calls[i]) == Held(s.calls[i]);
    forall j | 0 <= j < |t.calls|
      ensures CallOk(t, j) && Held(t.calls[j]) == Held(s.calls[j])
    {
      assert CallOk(s, j);
    }
  }

  lemma FailKeeps(s: State, a: Action)
    requires Inv(s) && Enabled(s, a) && (a.FailClear? || a.FailClose?)
    ensures Inv(Step(s, a))
  {
    var t := Step(s, a);
    forall j | 0 <= j < |t.calls|
      ensures CallOk(t, j)
    {
      assert CallOk(s, j);
    }
  }

  lemma StepKeeps(s: State, a: Action)
    requires Inv(s) && Enabled(s, a)
    ensures Inv(Step(s, a))
  {
    match a
    case Begin => BeginKeeps(s);
    case Register(i) => assert CallOk(s, i); ProgressKeeps(s, Step(s, a), i);
    case Sent(i, _) => assert CallOk(s, i); ProgressKeeps(s, Step(s, a), i);
    case Arrive(id) => ArriveKeeps(s, id);
    case Deliver => DeliverKeeps(s);
    case Take(i) => TakeKeeps(s, i);
    case GiveUp(i, _) => assert CallOk(s, i); ProgressKeeps(s, Step(s, a), i);
    case SeeClosed(i) => assert CallOk(s, i); ProgressKeeps(s, Step(s, a), i);
    case _ => FailKeeps(s, a);
  }

  // ----- Whole runs -----

  function Run(actions: seq<Action>): State {
    if actions == [] then Initial()
    else
      var s := Run(actions[..|actions| - 1]);
      if Enabled(s, actions[|actions| - 1]) then Step(s, actions[|actions| - 1]) else s
  }

  lemma {:induction false} RunKeeps(actions: seq<Action>)
    ensures Inv(Run(actions))
  {
    if actions != [] {
      RunKeeps(actions[..|actions| - 1]);
      var s := Run(actions[..|actions| - 1]);
      if Enabled(s, actions[|actions| - 1]) {
        StepKeeps(s, actions[|actions| - 1]);
      }
    }
  }

  ghost predicate EndedWith(s: State, i: nat, f: Frame) {
    i < |s.calls| && s.calls[i].at == Ended(Answered(f))
  }

  /** In every interleaving a call only ever consumes a frame with its own id, and a frame reaches at most one call. */
  lemma OwnReplyOnly(actions: seq<Action>, i: nat, j: nat, f: Frame, g: Frame)
    ensures var s := Run(actions);
            && (EndedWith(s, i, f) ==> f.id == s.calls[i].id && (s.reader.Delivering? ==> s.reader.f.no != f.no))
            && (EndedWith(s, i, f) && EndedWith(s, j, g) && f.no == g.no ==> i == j)
  {
    RunKeeps(actions);
    var s := Run(actions);
    if EndedWith(s, i, f) {
      assert CallOk(s, i) && Held(s.calls[i]) == Some(f);
      if EndedWith(s, j, g) {
        assert CallOk(s, j) && Held(s.calls[j]) == Some(g);
      }
    }
  }

  /** The reader is never held up: whatever became of the caller, its channel has room. */
  lemma DispatchNeverBlocks(actions: seq<Action>)
    ensures var s := Run(actions); s.reader.Delivering? ==> Enabled(s, Deliver)
  {
    RunKeeps(actions);
  }

  /** The step a call can always take once the connection has failed. */
  function NextOwn(s: State, i: nat): Action
    requires i < |s.calls|
  {
    match s.calls[i].at
    case Fresh => Register(i)
    case Registered => Sent(i, true)
    case _ => SeeClosed(i)
  }

  predicate IsOwn(a: Action, i: nat) {
    match a
    case Register(j) => i == j
    case Sent(j, _) => i == j
    case Take(j) => i == j
    case GiveUp(j, _) => i == j
    case SeeClosed(j) => i == j
    case _ => false
  }

  /** How many steps of its own call i takes when the run of `before` goes on with `more`. */
  function OwnSteps(before: seq<Action>, more: seq<Action>, i: nat): nat {
    if more == [] then 0
    else
      var front, last := more[..|more| - 1], more[|more| - 1];
      OwnSteps(before, front, i) + if IsOwn(last, i) && Enabled(Run(before + front), last) then 1 else 0
  }

  lemma ClosedStep(s: State, a: Action, i: nat)
    requires s.closed && i < |s.calls| && Enabled(s, a)
    ensures var t := Step(s, a);
            && t.closed && i < |t.calls| && (s.calls[i].at.Ended? ==> !IsOwn(a, i))
            && (t.calls[i].at.Ended? <==> s.calls[i].at.Ended? || IsOwn(a, i))
  {
  }

  lemma RunGoesOn(actions: seq<Action>, a: Action)
    ensures var s := Run(actions); Run(actions + [a]) == if Enabled(s, a) then Step(s, a) else s
  {
    assert (actions + [a])[..|actions|] == actions;
  }

  /**
   After the failure no call can hang: however the run goes on, a call that was not
   over takes at most one more step of its own, has one to take until then, and is
   over exactly when it has taken it.
   */
  lemma {:induction false} NobodyHangs(actions: seq<Action>, more: seq<Action>, i: nat)
    requires Run(actions).closed && i < |Run(actions).calls| && !Run(actions).calls[i].at.Ended?
    ensures var s := Run(actions + more);
            && s.closed && i < |s.calls| && OwnSteps(actions, more, i) <= 1
            && (s.calls[i].at.Ended? <==> OwnSteps(actions, more, i) == 1)
            && (!s.calls[i].at.Ended? ==> Enabled(s, NextOwn(s, i)) && IsOwn(NextOwn(s, i), i))
    decreases |more|
  {
    if more == [] {
      assert actions + more == actions;
    } else {
      var front, last := more[..|more| - 1], more[|more| - 1];
      NobodyHangs(actions, front, i);
      assert actions + more == (actions + front) + [last];
      RunGoesOn(actions + front, last);
      if Enabled(Run(actions + front), last) {
        ClosedStep(Run(actions + front), last, i);
      }
    }
  }

  // ----- Telling a stuck plugin from cancelled calls -----

  predicate OnlyCancels(actions: seq<Action>) {
    forall k :: 0 <= k < |actions| && actions[k].GiveUp? ==> !actions[k].deadline
  }

  /** However many calls are cancelled, cancellation alone never makes the plugin look stuck. */
  lemma {:induction false} CancelsAreNoEvidence(actions: seq<Action>)
    requires OnlyCancels(actions)
    ensures Run(actions).timeoutStreak == 0
  {
    if actions != [] {
      CancelsAreNoEvidence(actions[..|actions| - 1]);
    }
  }
}
