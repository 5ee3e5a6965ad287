/**
 The life of the device drivers in the collector (collector/task.go, deviceGate.go,
 engine.go, control.go): polls scheduled by the frequency groups, control calls
 under the engine's read lock, and refresh or stop under its write lock.
 */
module Collector {

  import opened Wrappers

  datatype Call = Connect | Read | Write

  /** `group` is None for a control call, which also holds the engine's read lock until it is Gone. */
  datatype Place = Outside | Inside | Calling(call: Call) | Gone

  datatype Thread = Thread(task: nat, device: nat, group: Option<nat>, at: Place)

  datatype Stage = Built | Running | Draining | Closed

  /**
   One collection task: the scheduling loops still alive, the devices whose driver
   may be connected, and those whose driver has been closed.
   */
  datatype Task = Task(stage: Stage, loops: set<nat>, devices: set<nat>, connected: set<nat>, closed: set<nat>)

  /** Who holds the engine's write lock and how far it has got. */
  datatype Admin =
    | Free
    | Locked
    | Stopping(next: Option<nat>)
    | Closing(next: Option<nat>)

  /** `held` are the device gates, by task and device, whose token is taken. */
  datatype State = State(tasks: seq<Task>, current: Option<nat>, admin: Admin, threads: seq<Thread>,
                         held: set<(nat, nat)>)

  datatype Action =
    | LockEngine
    | UnlockEngine
    | StartFirst(loops: set<nat>, devices: set<nat>)
    | Build(loops: set<nat>, devices: set<nat>)
    | BeginStop
    | LoopExit(g: nat)
    | Drained
    | CloseDriver(d: nat)
    | Switch
    | Schedule(g: nat, d: nat)
    | Control(d: nat)
    | TakeGate(i: nat)
    | Begin(i: nat, call: Call)
    | Return(i: nat, connected: bool)
    | ReleaseGate(i: nat)
    | Finish(i: nat)

  function Initial(): State {
    State([], None, Free, [], {})
  }

  predicate Alive(t: Thread) {
    !t.at.Gone?
  }

  predicate InGate(t: Thread) {
    t.at.Inside? || t.at.Calling?
  }

  predicate HasCurrent(s: State) {
    s.current.Some? && s.current.value < |s.tasks|
  }

  function Current(s: State): Task
    requires HasCurrent(s)
  {
    s.tasks[s.current.value]
  }

  /** No control call holds the read lock. */
  predicate NoReaders(s: State) {
    forall i :: 0 <= i < |s.threads| && s.threads[i].group.None? ==> s.threads[i].at.Gone?
  }

  /** The wait group of the collection task is at zero. */
  predicate NoPolls(s: State, k: nat) {
    forall i :: 0 <= i < |s.threads| && s.threads[i].task == k && s.threads[i].group.Some? ==> s.threads[i].at.Gone?
  }

  /** A poll of device d by group g of task k that has not ended. */
  predicate Polls(t: Thread, k: nat, g: nat, d: nat) {
    t.task == k && t.group == Some(g) && t.device == d && Alive(t)
  }

  /** The in-flight mark of group g for device d is not set. */
  predicate NotInFlight(s: State, k: nat, g: nat, d: nat) {
    forall i :: 0 <= i < |s.threads| ==> !Polls(s.threads[i], k, g, d)
  }

  predicate Enabled(s: State, a: Action) {
    match a
    case LockEngine => s.admin.Free? && NoReaders(s)
    case UnlockEngine => s.admin.Locked?
    case StartFirst(_, _) => s.admin.Locked? && s.current.None?
    case Build(_, _) => s.admin.Locked? && HasCurrent(s)
    case BeginStop => s.admin.Locked? && HasCurrent(s)
    case LoopExit(g) => HasCurrent(s) && Current(s).stage.Draining? && g in Current(s).loops
    case Drained => s.admin.Stopping? && HasCurrent(s) && Current(s).loops == {} && NoPolls(s, s.current.value)
    case CloseDriver(d) => s.admin.Closing? && HasCurrent(s) && d in Current(s).devices - Current(s).closed
    case Switch =>
      && s.admin.Closing? && HasCurrent(s) && Current(s).closed == Current(s).devices
      && (s.admin.next.Some? ==> s.admin.next.value < |s.tasks|)
    case Schedule(g, d) =>
      && HasCurrent(s) && (Current(s).stage.Running? || Current(s).stage.Draining?)
      && g in Current(s).loops && d in Current(s).devices && NotInFlight(s, s.current.value, g, d)
    case Control(d) => s.admin.Free? && HasCurrent(s) && d in Current(s).devices
    case TakeGate(i) =>
      i < |s.threads| && s.threads[i].at.Outside? && (s.threads[i].task, s.threads[i].device) !in s.held
    case Begin(i, call) =>
      i < |s.threads| && s.threads[i].at.Inside? && (s.threads[i].group.None? ==> call != Connect)
    case Return(i, _) => i < |s.threads| && s.threads[i].at.Calling? && s.threads[i].task < |s.tasks|
    case ReleaseGate(i) => i < |s.threads| && s.threads[i].at.Inside?
    case Finish(i) => i < |s.threads| && s.threads[i].at.Outside?
  }

  function SetCurrent(s: State, t: Task): State
    requires HasCurrent(s)
  {
    s.(tasks := s.tasks[s.current.value := t])
  }

  function At(s: State, i: nat, at: Place): State
    requires i < |s.threads|
  {
    s.(threads := s.threads[i := s.threads[i].(at := at)])
  }

  function GateOf(t: Thread): (nat, nat) {
    (t.task, t.device)
  }

  function Step(s: State, a: Action): State
    requires Enabled(s, a)
  {
    match a
    case LockEngine => s.(admin := Locked)
    case UnlockEngine => s.(admin := Free)
    case StartFirst(loops, devices) =>
      s.(tasks := s.tasks + [Task(Running, loops, devices, {}, {})], current := Some(|s.tasks|), admin := Free)
    case Build(loops, devices) =>
      // the new task is only built; the old one is stopped next
      s.(tasks := s.tasks[s.current.value := Current(s).(stage := Draining)] + [Task(Built, loops, devices, {}, {})],
         admin := Stopping(Some(|s.tasks|)))
    case BeginStop => SetCurrent(s, Current(s).(stage := Draining)).(admin := Stopping(None))
    case LoopExit(g) => SetCurrent(s, Current(s).(loops := Current(s).loops - {g}))
    case Drained => s.(admin := Closing(s.admin.next))
    case CloseDriver(d) =>
      SetCurrent(s, Current(s).(closed := Current(s).closed + {d}, connected := Current(s).connected - {d}))
    case Switch =>
      var t := SetCurrent(s, Current(s).(stage := Closed)).(admin := Free);
      if s.admin.next.None? then t.(current := None)
      else t.(tasks := t.tasks[s.admin.next.value := t.tasks[s.admin.next.value].(stage := Running)],
              current := s.admin.next)
    case Schedule(g, d) => s.(threads := s.threads + [Thread(s.current.value, d, Some(g), Outside)])
    case Control(d) => s.(threads := s.threads + [Thread(s.current.value, d, None, Outside)])
    case TakeGate(i) => At(s, i, Inside).(held := s.held + {GateOf(s.threads[i])})
    case Begin(i, call) => At(s, i, Calling(call))
    case Return(i, connected) =>
      var th := s.threads[i];
      var task := s.tasks[th.task];
      At(s, i, Inside).(tasks :=
        if th.at.call == Connect && connected
        then s.tasks[th.task := task.(connected := task.connected + {th.device})] else s.tasks)
    case ReleaseGate(i) => At(s, i, Outside).(held := s.held - {GateOf(s.threads[i])})
    case Finish(i) => At(s, i, Gone)
  }

  // ----- What every step keeps -----

  predicate Live(t: Task) {
    t.stage.Running? || t.stage.Draining?
  }

  /** What holds of task k while `current` is current: only that one is live. */
  ghost predicate TaskOk(t: Task, k: nat, current: Option<nat>, admin: Admin) {
    && (Live(t) <==> current == Some(k))
    && (!Live(t) ==> t.connected == {})
    && (t.closed != {} ==> t.stage.Closed? || (admin.Closing? && current == Some(k)))
    && t.connected <= t.devices && t.closed <= t.devices && t.connected !! t.closed
  }

  ghost predicate TasksOk(s: State) {
    && (s.current.Some? ==> s.current.value < |s.tasks|)
    && forall k :: 0 <= k < |s.tasks| ==> TaskOk(s.tasks[k], k, s.current, s.admin)
  }

  ghost predicate AdminOk(s: State) {
    match s.admin
    case Free => HasCurrent(s) ==> Current(s).stage.Running?
    case Locked => NoReaders(s) && (HasCurrent(s) ==> Current(s).stage.Running?)
    case Stopping(next) => NoReaders(s) && HasCurrent(s) && Current(s).stage.Draining? && NextOk(s, next)
    case Closing(next) =>
      && NoReaders(s) && HasCurrent(s) && Current(s).stage.Draining? && NextOk(s, next)
      && Current(s).loops == {} && NoPolls(s, s.current.value)
  }

  ghost predicate NextOk(s: State, next: Option<nat>) {
    next.Some? ==> next.value < |s.tasks| && s.tasks[next.value].stage.Built?
  }

  /** A live thread works on a device of the current task. */
  ghost predicate ThreadOk(s: State, t: Thread) {
    Alive(t) ==> s.current == Some(t.task) && t.task < |s.tasks| && t.device in s.tasks[t.task].devices
  }

  ghost predicate ThreadsOk(s: State) {
    forall i :: 0 <= i < |s.threads| ==> ThreadOk(s, s.threads[i])
  }

  /** A gate's token is out while a thread is between taking and returning it, and no two are. */
  ghost predicate GatesOk(threads: seq<Thread>, held: set<(nat, nat)>) {
    && (forall i :: 0 <= i < |threads| && InGate(threads[i]) ==> GateOf(threads[i]) in held)
    && (forall i, j :: 0 <= i < j < |threads| && InGate(threads[i]) && InGate(threads[j]) ==>
          GateOf(threads[i]) != GateOf(threads[j]))
  }

  /** A group never has two polls of one device under way. */
  ghost predicate NoPileUp(threads: seq<Thread>) {
    forall i, j :: 0 <= i < j < |threads| && Alive(threads[i]) && Alive(threads[j]) && threads[i].group.Some? ==>
      threads[i].task != threads[j].task || threads[i].group != threads[j].group
      || threads[i].device != threads[j].device
  }

  ghost predicate Inv(s: State) {
    && TasksOk(s) && AdminOk(s) && ThreadsOk(s)
    && GatesOk(s.threads, s.held) && NoPileUp(s.threads)
  }

  /** A thread moves between places without leaving or entering its gate, or leaves for good. */
  lemma MoveKeeps(s: State, i: nat, at: Place)
    requires Inv(s) && i < |s.threads| && Alive(s.threads[i])
    requires InGate(s.threads[i]) == (at.Inside? || at.Calling?)
    ensures Inv(At(s, i, at))
  {
    var t := At(s, i, at);
    assert forall j :: 0 <= j < |s.threads| && j != i ==> t.threads[j] == s.threads[j];
    assert ThreadOk(s, s.threads[i]);
    ThreadsMove(s, i, at);
  }

  lemma ThreadsMove(s: State, i: nat, at: Place)
    requires Inv(s) && i < |s.threads| && Alive(s.threads[i])
    ensures ThreadsOk(At(s, i, at)) && NoPileUp(At(s, i, at).threads) && TasksOk(At(s, i, at)) && AdminOk(At(s, i, at))
  {
    var t := At(s, i, at);
    forall j | 0 <= j < |t.threads|
      ensures ThreadOk(t, t.threads[j])
    {
      assert ThreadOk(s, s.threads[j]);
    }
    assert ThreadOk(s, s.threads[i]);
  }

  lemma TakeKeeps(s: State, i: nat)
    requires Inv(s) && Enabled(s, TakeGate(i))
    ensures Inv(Step(s, TakeGate(i)))
  {
    ThreadsMove(s, i, Inside);
  }

  lemma ReleaseKeeps(s: State, i: nat)
    requires Inv(s) && Enabled(s, ReleaseGate(i))
    ensures Inv(Step(s, ReleaseGate(i)))
  {
    ThreadsMove(s, i, Outside);
  }

  /** Replacing the current task by one that is live in the same stage changes nothing for anyone else. */
  lemma TaskKeeps(s: State, t: Task)
    requires Inv(s) && HasCurrent(s) && t.stage == Current(s).stage && t.devices == Current(s).devices
    requires TaskOk(t, s.current.value, s.current, s.admin) && t.loops <= Current(s).loops
    ensures Inv(SetCurrent(s, t))
  {
    var u := SetCurrent(s, t);
    forall j | 0 <= j < |u.threads|
      ensures ThreadOk(u, u.threads[j])
    {
      assert ThreadOk(s, s.threads[j]);
    }
  }

  lemma ReturnKeeps(s: State, i: nat, connected: bool)
    requires Inv(s) && Enabled(s, Return(i, connected))
    ensures Inv(Step(s, Return(i, connected)))
  {
    var th := s.threads[i];
    assert ThreadOk(s, th);
    MoveKeeps(s, i, Inside);
    if th.at.call == Connect && connected {
      assert TaskOk(Current(s), s.current.value, s.current, s.admin);
      TaskKeeps(At(s, i, Inside), Current(s).(connected := Current(s).connected + {th.device}));
    }
  }

  lemma SpawnKeeps(s: State, th: Thread)
    requires Inv(s) && th.at.Outside? && ThreadOk(s, th)
    requires th.group.None? ==> s.admin.Free?
    requires th.group.Some? ==> !s.admin.Closing? && NotInFlight(s, th.task, th.group.value, th.device)
    ensures Inv(s.(threads := s.threads + [th]))
  {
    var t := s.(threads := s.threads + [th]);
    forall j | 0 <= j < |t.threads|
      ensures ThreadOk(t, t.threads[j])
    {
      if j < |s.threads| {
        assert ThreadOk(s, s.threads[j]);
      }
    }
    assert forall j :: 0 <= j < |s.threads| && th.group.Some? ==> !Polls(s.threads[j], th.task, th.group.value, th.device);
  }

  // ----- The write lock -----

  lemma LockKeeps(s: State, a: Action)
    requires Inv(s) && Enabled(s, a) && (a.LockEngine? || a.UnlockEngine?)
    ensures Inv(Step(s, a))
  {
    var t := Step(s, a);
    assert forall k :: 0 <= k < |t.tasks| ==> TaskOk(s.tasks[k], k, s.current, s.admin);
    assert forall j :: 0 <= j < |t.threads| ==> ThreadOk(s, s.threads[j]) && t.threads[j] == s.threads[j];
  }

  lemma StartKeeps(s: State, loops: set<nat>, devices: set<nat>)
    requires Inv(s) && Enabled(s, StartFirst(loops, devices))
    ensures Inv(Step(s, StartFirst(loops, devices)))
  {
    assert forall k :: 0 <= k < |s.tasks| ==> TaskOk(s.tasks[k], k, s.current, s.admin);
  }

  /** The current task starts draining; `more` is the freshly built successor, if any. */
  lemma StopKeeps(s: State, more: seq<Task>, admin: Admin)
    requires Inv(s) && s.admin.Locked? && HasCurrent(s)
    requires |more| <= 1 && forall m :: m in more ==> m.stage.Built? && m.connected == {} && m.closed == {}
    requires admin == Stopping(if more == [] then None else Some(|s.tasks|))
    ensures Inv(s.(tasks := s.tasks[s.current.value := Current(s).(stage := Draining)] + more, admin := admin))
  {
    var t := s.(tasks := s.tasks[s.current.value := Current(s).(stage := Draining)] + more, admin := admin);
    forall k | 0 <= k < |t.tasks|
      ensures TaskOk(t.tasks[k], k, t.current, t.admin)
    {
      if k < |s.tasks| {
        assert TaskOk(s.tasks[k], k, s.current, s.admin);
      } else {
        assert t.tasks[k] == more[0] && more[0] in more;
      }
    }
    forall j | 0 <= j < |t.threads|
      ensures ThreadOk(t, t.threads[j])
    {
      assert ThreadOk(s, s.threads[j]);
    }
    assert more != [] ==> more[0] in more;
  }

  lemma DrainedKeeps(s: State)
    requires Inv(s) && Enabled(s, Drained)
    ensures Inv(Step(s, Drained))
  {
    var t := Step(s, Drained);
    assert forall k :: 0 <= k < |t.tasks| ==> TaskOk(s.tasks[k], k, s.current, s.admin);
    assert forall j :: 0 <= j < |t.threads| ==> ThreadOk(s, s.threads[j]);
  }

  lemma SwitchTasks(s: State)
    requires Inv(s) && Enabled(s, Switch)
    ensures TasksOk(Step(s, Switch)) && AdminOk(Step(s, Switch))
  {
    var t := Step(s, Switch);
    assert TaskOk(Current(s), s.current.value, s.current, s.admin);
    if s.admin.next.Some? {
      assert TaskOk(s.tasks[s.admin.next.value], s.admin.next.value, s.current, s.admin);
    }
    forall k | 0 <= k < |t.tasks|
      ensures TaskOk(t.tasks[k], k, t.current, t.admin)
    {
      assert TaskOk(s.tasks[k], k, s.current, s.admin);
    }
  }

  lemma SwitchKeeps(s: State)
    requires Inv(s) && Enabled(s, Switch)
    ensures Inv(Step(s, Switch))
  {
    SwitchTasks(s);
  }

  lemma ScheduleKeeps(s: State, g: nat, d: nat)
    requires Inv(s) && Enabled(s, Schedule(g, d))
    ensures Inv(Step(s, Schedule(g, d)))
  {
    SpawnKeeps(s, Thread(s.current.value, d, Some(g), Outside));
  }

  lemma StepKeeps(s: State, a: Action)
    requires Inv(s) && Enabled(s, a)
    ensures Inv(Step(s, a))
  {
    match a
    case LockEngine => LockKeeps(s, a);
    case UnlockEngine => LockKeeps(s, a);
    case StartFirst(loops, devices) => StartKeeps(s, loops, devices);
    case Build(loops, devices) => StopKeeps(s, [Task(Built, loops, devices, {}, {})], Stopping(Some(|s.tasks|)));
    case BeginStop =>
      StopKeeps(s, [], Stopping(None));
      assert s.tasks[s.current.value := Current(s).(stage := Draining)] + []
          == s.tasks[s.current.value := Current(s).(stage := Draining)];
    case LoopExit(g) => LoopExitKeeps(s, g);
    case Drained => DrainedKeeps(s);
    case CloseDriver(d) => CloseKeeps(s, d);
    case Switch => SwitchKeeps(s);
    case Schedule(g, d) => ScheduleKeeps(s, g, d);
    case Control(d) => SpawnKeeps(s, Thread(s.current.value, d, None, Outside));
    case TakeGate(i) => TakeKeeps(s, i);
    case Begin(i, call) => MoveKeeps(s, i, Calling(call));
    case Return(i, connected) => ReturnKeeps(s, i, connected);
    case ReleaseGate(i) => ReleaseKeeps(s, i);
    case Finish(i) => MoveKeeps(s, i, Gone);
  }

  lemma LoopExitKeeps(s: State, g: nat)
    requires Inv(s) && Enabled(s, LoopExit(g))
    ensures Inv(Step(s, LoopExit(g)))
  {
    assert TaskOk(Current(s), s.current.value, s.current, s.admin);
    TaskKeeps(s, Current(s).(loops := Current(s).loops - {g}));
  }

  lemma CloseKeeps(s: State, d: nat)
    requires Inv(s) && Enabled(s, CloseDriver(d))
    ensures Inv(Step(s, CloseDriver(d)))
  {
    assert TaskOk(Current(s), s.current.value, s.current, s.admin);
    TaskKeeps(s, Current(s).(closed := Current(s).closed + {d}, connected := Current(s).connected - {d}));
  }

  // ----- Whole runs -----

  /** An action that is not enabled when its turn comes changes nothing. */
  function Run(actions: seq<Action>): State {
    if actions == [] then Initial()
    else
      var s := Run(actions[..|actions| - 1]);
      if Enabled(s, actions[|actions| - 1]) then Step(s, actions[|actions| - 1]) else s
  }

  lemma {:induction false} RunKeeps(actions: seq<Action>)
    ensures Inv(Run(actions))
  {
    if actions != [] {
      RunKeeps(actions[..|actions| - 1]);
      var s := Run(actions[..|actions| - 1]);
      if Enabled(s, actions[|actions| - 1]) {
        StepKeeps(s, actions[|actions| - 1]);
      }
    }
  }

  ghost predicate IsCalling(s: State, i: nat, k: nat, d: nat) {
    i < |s.threads| && s.threads[i].at.Calling? && s.threads[i].task == k && s.threads[i].device == d
  }

  /**
   On the driver of any device in any task, no two of Connect, Read and Write are
   ever under way together, whether they come from polls of different groups, from
   control writes or from read-backs; and none is under way once it has been closed.
   */
  lemma CallsNeverOverlap(actions: seq<Action>, k: nat, d: nat, i: nat, j: nat)
    ensures var s := Run(actions);
            && (IsCalling(s, i, k, d) && IsCalling(s, j, k, d) ==> i == j)
            && (IsCalling(s, i, k, d) ==> k < |s.tasks| && d in s.tasks[k].devices && d !in s.tasks[k].closed)
  {
    RunKeeps(actions);
    var s := Run(actions);
    if IsCalling(s, i, k, d) {
      assert ThreadOk(s, s.threads[i]);
      assert TaskOk(s.tasks[k], k, s.current, s.admin);
    }
  }

  /** A driver is closed only while nothing is under way on its collection task at all. */
  lemma CloseInterruptsNothing(actions: seq<Action>, d: nat)
    ensures var s := Run(actions);
            Enabled(s, CloseDriver(d)) ==> forall i :: 0 <= i < |s.threads| ==> s.threads[i].at.Gone?
  {
    RunKeeps(actions);
  }

  /** At no time, refresh included, have two tasks the same device connected; what is closed is not connected. */
  lemma OneConnectionPerDevice(actions: seq<Action>, k: nat, l: nat, d: nat)
    ensures var s := Run(actions);
            k < |s.tasks| && l < |s.tasks| && d in s.tasks[k].connected ==>
              (d in s.tasks[l].connected ==> k == l) && d !in s.tasks[k].closed && s.current == Some(k)
  {
    RunKeeps(actions);
    var s := Run(actions);
    assert k < |s.tasks| ==> TaskOk(s.tasks[k], k, s.current, s.admin);
    assert l < |s.tasks| ==> TaskOk(s.tasks[l], l, s.current, s.admin);
  }

  /** A slow device is polled once per group at a time. */
  lemma PollsDoNotPileUp(actions: seq<Action>)
    ensures NoPileUp(Run(actions).threads)
  {
    RunKeeps(actions);
  }
}
