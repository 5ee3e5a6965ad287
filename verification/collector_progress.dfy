/**
 What the collector gets done (collector/task.go, engine.go): a poll that is scheduled
 reaches its driver and gives its gate back, whatever is under way can end, and a stop
 or refresh that has begun can be carried through.
 */
module CollectorProgress {

  import opened Wrappers
  import opened Collector

  ghost predicate Reaches(actions: seq<Action>, s: State) {
    s == Run(actions)
  }

  lemma Advance(actions: seq<Action>, s: State, a: Action) returns (more: seq<Action>, t: State)
    requires Reaches(actions, s) && Enabled(s, a)
    ensures t == Step(s, a) && Reaches(more, t)
  {
    more, t := actions + [a], Step(s, a);
    assert more[..|actions|] == actions;
  }

  /** A thread that holds its gate makes a call and gives the gate back; a Connect that succeeds is noted. */
  lemma CallIsMade(actions: seq<Action>, s: State, i: nat, call: Call, connected: bool)
    returns (more: seq<Action>, t: State)
    requires Reaches(actions, s) && Enabled(s, Begin(i, call)) && s.threads[i].task < |s.tasks|
    ensures Reaches(more, t)
    ensures var th := s.threads[i]; var task := s.tasks[th.task];
            && t.threads == s.threads[i := th.(at := Gone)] && t.held == s.held - {GateOf(th)}
            && t.current == s.current && t.admin == s.admin
            && t.tasks == (if call == Connect && connected
                           then s.tasks[th.task := task.(connected := task.connected + {th.device})] else s.tasks)
  {
    more, t := Advance(actions, s, Begin(i, call));
    more, t := Advance(more, t, Return(i, connected));
    more, t := Advance(more, t, ReleaseGate(i));
    more, t := Advance(more, t, Finish(i));
    assert t.threads == s.threads[i := s.threads[i].(at := Gone)];
  }

  /** A poll that is due reaches its driver while nobody else holds the device, and leaves no trace but what it connected. */
  lemma PollIsMade(actions: seq<Action>, s: State, g: nat, d: nat, call: Call, connected: bool)
    returns (more: seq<Action>, t: State)
    requires Reaches(actions, s) && Enabled(s, Schedule(g, d)) && (s.current.value, d) !in s.held
    ensures Reaches(more, t)
    ensures var k := s.current.value; var task := s.tasks[k];
            && t.threads == s.threads + [Thread(k, d, Some(g), Gone)]
            && t.held == s.held && t.current == s.current && t.admin == s.admin
            && t.tasks == (if call == Connect && connected
                           then s.tasks[k := task.(connected := task.connected + {d})] else s.tasks)
  {
    var i := |s.threads|;
    more, t := Advance(actions, s, Schedule(g, d));
    more, t := Advance(more, t, TakeGate(i));
    assert t.threads[i] == Thread(s.current.value, d, Some(g), Inside);
    ghost var inGate := t;
    more, t := CallIsMade(more, t, i, call, connected);
    assert t.threads == s.threads + [Thread(s.current.value, d, Some(g), Gone)];
    assert t.held == s.held;
  }

  /** Whatever a thread is doing, it can end by steps of its own, giving back the gate it holds. */
  lemma ThreadEnds(actions: seq<Action>, s: State, i: nat) returns (more: seq<Action>, t: State)
    requires Reaches(actions, s) && i < |s.threads| && Alive(s.threads[i])
    ensures Reaches(more, t) && t.threads == s.threads[i := s.threads[i].(at := Gone)]
    ensures t.held == if InGate(s.threads[i]) then s.held - {GateOf(s.threads[i])} else s.held
    ensures t.tasks == s.tasks && t.current == s.current && t.admin == s.admin
  {
    RunKeeps(actions);
    assert ThreadOk(s, s.threads[i]);
    more, t := actions, s;
    if t.threads[i].at.Calling? {
      more, t := Advance(more, t, Return(i, false));
    }
    if t.threads[i].at.Inside? {
      more, t := Advance(more, t, ReleaseGate(i));
    }
    more, t := Advance(more, t, Finish(i));
    assert t.threads == s.threads[i := s.threads[i].(at := Gone)];
  }

  lemma {:induction false} LoopsExit(actions: seq<Action>, s: State) returns (more: seq<Action>, t: State)
    requires Reaches(actions, s) && HasCurrent(s) && Current(s).stage.Draining?
    ensures Reaches(more, t) && t == SetCurrent(s, Current(s).(loops := {}))
    decreases |Current(s).loops|
  {
    if Current(s).loops == {} {
      more, t := actions, s;
      assert s.tasks[s.current.value := Current(s)] == s.tasks;
    } else {
      var g :| g in Current(s).loops;
      more, t := Advance(actions, s, LoopExit(g));
      var mid := t;
      more, t := LoopsExit(more, t);
      assert mid.tasks[s.current.value := Current(mid).(loops := {})] == s.tasks[s.current.value := Current(s).(loops := {})];
    }
  }

  lemma {:induction false} DriversClose(actions: seq<Action>, s: State) returns (more: seq<Action>, t: State)
    requires Reaches(actions, s) && HasCurrent(s) && s.admin.Closing?
    requires Current(s).closed <= Current(s).devices && Current(s).connected <= Current(s).devices - Current(s).closed
    ensures Reaches(more, t) && t == SetCurrent(s, Current(s).(closed := Current(s).devices, connected := {}))
    decreases |Current(s).devices - Current(s).closed|
  {
    if Current(s).devices - Current(s).closed == {} {
      more, t := actions, s;
      forall d | d in Current(s).devices
        ensures d in Current(s).closed
      {
        assert d !in Current(s).devices - Current(s).closed;
      }
      assert Current(s).closed == Current(s).devices && Current(s).connected == {};
      assert Current(s).(closed := Current(s).devices, connected := {}) == Current(s);
      assert s.tasks[s.current.value := Current(s)] == s.tasks;
    } else {
      var d :| d in Current(s).devices - Current(s).closed;
      more, t := Advance(actions, s, CloseDriver(d));
      var mid := t;
      assert Current(mid).devices - Current(mid).closed == (Current(s).devices - Current(s).closed) - {d};
      more, t := DriversClose(more, t);
      assert mid.tasks[s.current.value := Current(mid).(closed := Current(mid).devices, connected := {})]
          == s.tasks[s.current.value := Current(s).(closed := Current(s).devices, connected := {})];
    }
  }

  ghost predicate NobodyAlive(s: State) {
    forall i :: 0 <= i < |s.threads| ==> !Alive(s.threads[i])
  }

  /** Stopping: the loops leave, the drivers are closed, all of them. */
  lemma StopCloses(actions: seq<Action>, s: State) returns (more: seq<Action>, t: State)
    requires Reaches(actions, s) && s.admin.Stopping? && NobodyAlive(s)
    ensures Reaches(more, t) && HasCurrent(s) && t.admin == Closing(s.admin.next) && t.threads == s.threads
    ensures t.tasks == s.tasks[s.current.value := Current(s).(loops := {}, closed := Current(s).devices, connected := {})]
    ensures t.current == s.current && t.held == s.held
  {
    RunKeeps(actions);
    assert TaskOk(Current(s), s.current.value, s.current, s.admin);
    more, t := LoopsExit(actions, s);
    more, t := Advance(more, t, Drained);
    var mid := t;
    more, t := DriversClose(more, t);
    assert t.tasks == s.tasks[s.current.value := Current(s).(loops := {}, closed := Current(s).devices, connected := {})];
  }

  /**
   A stop or refresh that has begun can be carried through once no call is under way:
   every driver of the old task is closed, none stays connected, and the new task, if
   there is one, runs with nothing connected yet.
   */
  lemma RefreshCompletes(actions: seq<Action>, s: State) returns (more: seq<Action>, t: State)
    requires Reaches(actions, s) && s.admin.Stopping? && NobodyAlive(s)
    ensures Reaches(more, t) && HasCurrent(s) && t.admin.Free? && t.current == s.admin.next && |t.tasks| == |s.tasks|
    ensures var prior := t.tasks[s.current.value];
            prior.stage.Closed? && prior.closed == Current(s).devices && prior.connected == {}
    ensures t.current.Some? ==>
              && HasCurrent(t) && t.current != s.current
              && Current(t) == s.tasks[t.current.value].(stage := Running) && Current(t).connected == {}
  {
    RunKeeps(actions);
    more, t := StopCloses(actions, s);
    RunKeeps(more);
    if s.admin.next.Some? {
      assert TaskOk(s.tasks[s.admin.next.value], s.admin.next.value, s.current, s.admin);
    }
    more, t := Advance(more, t, Switch);
  }
}
