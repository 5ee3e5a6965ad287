/**
 What a driver gets done with its session (pluginhost/remote.go,
 pluginhost/remote_writable.go), kept apart by the device gate: an undisturbed connect
 gives it a session it can use, and a use of a fresh session reaches the plugin.
 */
module PluginUse {

  import opened Wrappers
  import opened PluginSession
  import Fleet = PluginFleet

  ghost predicate GatedReach(starts: nat, actions: seq<Action>, s: State) {
    starts > 0 && s == Run(Initial(starts), actions, true) && Fleet.WellFormed(s.fleet)
  }

  lemma Advanced(starts: nat, actions: seq<Action>, s: State, a: Action) returns (more: seq<Action>, t: State)
    requires GatedReach(starts, actions, s) && Enabled(s, a, true) && !a.Plugin?
    ensures t == Step(s, a, true) && GatedReach(starts, more, t)
  {
    more, t := actions + [a], Step(s, a, true);
    RunExtends(Initial(starts), actions, a, true);
  }

  lemma GatedAcquire(starts: nat, actions: seq<Action>, s: State, o: nat, c: nat) returns (more: seq<Action>, t: State)
    requires GatedReach(starts, actions, s) && Knows(s, o) && s.ops[o].at.Fresh? && CurrentUp(s, c)
    ensures GatedReach(starts, more, t) && t == At(s, o, Holding(c))
  {
    more, t := Advanced(starts, actions, s, LoadLink(o));
    more, t := Advanced(starts, more, t, ReadCur(o));
    more, t := Advanced(starts, more, t, TakeIfUp(o));
    assert t.ops == At(s, o, Holding(c)).ops;
  }

  /** A driver nobody is using, which holds a session of the client that is current and up. */
  ghost predicate Ready(s: State, d: nat, c: nat)
    requires Fleet.WellFormed(s.fleet)
  {
    && d in s.drivers && GateFree(s, d) && s.drivers[d].session != 0
    && CurrentUp(s, c) && s.fleet.clients[c].epoch == s.drivers[d].epochAt && !Stale(s, s.drivers[d])
  }

  lemma FrameGoesOut(starts: nat, actions: seq<Action>, s: State, o: nat, d: nat, c: nat)
    returns (more: seq<Action>, t: State)
    requires GatedReach(starts, actions, s) && Ready(s, d, c) && o !in s.ops
    ensures GatedReach(starts, more, t)
    ensures t == s.(ops := s.ops[o := Op(d, Use, s.drivers[d].session, false, Asked)],
                    sent := s.sent + [Issue(c, d, s.drivers[d].session)])
  {
    more, t := Advanced(starts, actions, s, Begin(o, d, Use));
    more, t := Advanced(starts, more, t, CheckFresh(o));
    more, t := GatedAcquire(starts, more, t, o, c);
    more, t := Advanced(starts, more, t, Compare(o));
    more, t := Advanced(starts, more, t, Send(o));
    assert t.ops == s.ops[o := Op(d, Use, s.drivers[d].session, false, Asked)];
  }

  /** A read or write on a fresh session sends its id to the current client, once, and takes over what the answer says. */
  lemma UseReachesPlugin(starts: nat, actions: seq<Action>, s: State, o: nat, d: nat, c: nat, connected: bool)
    returns (more: seq<Action>, t: State)
    requires GatedReach(starts, actions, s) && Ready(s, d, c) && o !in s.ops
    ensures GatedReach(starts, more, t) && t.ops == s.ops && t.fleet == s.fleet && t.issued == s.issued
    ensures t.sent == s.sent + [Issue(c, d, s.drivers[d].session)]
    ensures t.drivers == s.drivers[d := s.drivers[d].(connected := connected)]
  {
    more, t := FrameGoesOut(starts, actions, s, o, d, c);
    more, t := Advanced(starts, more, t, Answer(o, connected));
    assert t.ops == s.ops;
  }

  /** And no answer, or none in time, leaves the driver disconnected, its session kept for the next attempt to judge. */
  lemma NoAnswerDisconnects(starts: nat, actions: seq<Action>, s: State, o: nat, d: nat, c: nat)
    returns (more: seq<Action>, t: State)
    requires GatedReach(starts, actions, s) && Ready(s, d, c) && o !in s.ops
    ensures GatedReach(starts, more, t) && t.ops == s.ops && t.fleet == s.fleet
    ensures t.drivers == s.drivers[d := s.drivers[d].(connected := false)]
  {
    more, t := FrameGoesOut(starts, actions, s, o, d, c);
    more, t := Advanced(starts, more, t, Quit(o));
    assert t.ops == s.ops;
  }

  lemma ConnectBegins(starts: nat, actions: seq<Action>, s: State, o: nat, d: nat, c: nat)
    returns (more: seq<Action>, t: State)
    requires GatedReach(starts, actions, s) && o !in s.ops && d in s.drivers && GateFree(s, d) && CurrentUp(s, c)
    ensures GatedReach(starts, more, t)
    ensures t == s.(ops := s.ops[o := Op(d, Connect, s.drivers[d].session, true, Holding(c))],
                    drivers := s.drivers[d := s.drivers[d].(session := 0, connected := false)])
  {
    more, t := Advanced(starts, actions, s, Begin(o, d, Connect));
    more, t := Advanced(starts, more, t, TurnToConnect(o));
    more, t := GatedAcquire(starts, more, t, o, c);
    assert t.ops == s.ops[o := Op(d, Connect, s.drivers[d].session, true, Holding(c))];
  }

  lemma ConnectEnds(starts: nat, actions: seq<Action>, s: State, o: nat, d: nat, sid: nat, c: nat)
    returns (more: seq<Action>, t: State)
    requires GatedReach(starts, actions, s) && Knows(s, o) && c < |s.fleet.clients|
    requires s.ops[o].driver == d && s.ops[o].connecting && s.ops[o].at == Holding(c)
    requires sid != 0 && FreshIn(s, c, sid)
    ensures GatedReach(starts, more, t)
    ensures t == s.(ops := s.ops - {o}, issued := s.issued + {Issue(c, d, sid)},
                    drivers := s.drivers[d := Driver(sid, s.fleet.clients[c].epoch, true, sid, c)])
  {
    more, t := Advanced(starts, actions, s, CallConnect(o));
    more, t := Advanced(starts, more, t, Reply(o, sid));
    more, t := Advanced(starts, more, t, Store(o, true));
    assert t.ops == s.ops - {o};
  }

  lemma CurrentIsFresh(starts: nat, actions: seq<Action>, s: State, c: nat)
    requires GatedReach(starts, actions, s) && CurrentUp(s, c)
    ensures s.fleet.clients[c].epoch == Fleet.LinkEpoch(s.fleet)
  {
    Fleet.LoadEstablishes(starts);
    RunKeeps(Initial(starts), actions);
  }

  /** A connect leaves the driver ready to use what the current client issued. */
  lemma ConnectMakesReady(starts: nat, actions: seq<Action>, s: State, o: nat, d: nat, sid: nat, c: nat)
    returns (more: seq<Action>, t: State)
    requires GatedReach(starts, actions, s) && o !in s.ops && d in s.drivers && GateFree(s, d)
    requires CurrentUp(s, c) && sid != 0 && FreshIn(s, c, sid)
    ensures GatedReach(starts, more, t) && t.ops == s.ops && t.sent == s.sent && t.fleet == s.fleet
    ensures t.issued == s.issued + {Issue(c, d, sid)}
    ensures t.drivers == s.drivers[d := Driver(sid, s.fleet.clients[c].epoch, true, sid, c)]
    ensures Ready(t, d, c) && IsConnected(t, d)
  {
    CurrentIsFresh(starts, actions, s, c);
    more, t := ConnectBegins(starts, actions, s, o, d, c);
    more, t := ConnectEnds(starts, more, t, o, d, sid, c);
    assert t.ops == s.ops;
  }

  /** A new version started beside the old one: its process is described and the old one asked to leave. */
  lemma UpgradeBegins(f: Fleet.Fleet) returns (g: Fleet.Fleet)
    requires Fleet.Inv(f) && f.phase.Idle?
    ensures Fleet.Inv(g)
    ensures g == f.(clients := f.clients + [Fleet.Client(1, true)],
                    procs := f.procs + [Fleet.Proc(0, 1, Some(|f.clients|), false)], phase := Fleet.Retiring(|f.procs|))
  {
    var next := |f.procs|;
    Fleet.StepKeeps(f, Fleet.BeginUpgrade);
    g := Fleet.Next(f, Fleet.BeginUpgrade);
    Fleet.StepKeeps(g, Fleet.MarkUp(next));
    g := Fleet.Next(g, Fleet.MarkUp(next));
    Fleet.StepKeeps(g, Fleet.StopOld);
    g := Fleet.Next(g, Fleet.StopOld);
    assert g.procs == f.procs + [Fleet.Proc(0, 1, Some(|f.clients|), false)];
  }

  lemma OldRetires(f: Fleet.Fleet) returns (g: Fleet.Fleet)
    requires Fleet.Inv(f) && f.phase.Retiring?
    ensures Fleet.Inv(g) && g.phase == Fleet.Failed(f.phase.next)
    ensures g.seen == f.seen && g.linked == f.linked && |g.clients| == |f.clients| && |g.procs| == |f.procs|
    ensures forall c :: 0 <= c < |f.clients| && c != Fleet.Last(f) ==> g.clients[c] == f.clients[c]
    ensures Fleet.Dead(g.procs[g.linked]) && Fleet.LinkEpoch(g) == Fleet.LinkEpoch(f)
    ensures forall p :: 0 <= p < |f.procs| && p != f.linked ==> g.procs[p] == f.procs[p]
  {
    Fleet.StepKeeps(f, Fleet.Exit(f.linked));
    g := Fleet.Next(f, Fleet.Exit(f.linked));
    Fleet.StepKeeps(g, Fleet.Detach);
    g := Fleet.Next(g, Fleet.Detach);
    Fleet.StepKeeps(g, Fleet.FailOld);
    g := Fleet.Next(g, Fleet.FailOld);
  }

  /**
   From any state an upgrade can be carried through: the link then names the new
   process, whose client is up and one generation above all the old process reached.
   */
  lemma UpgradeCompletes(f: Fleet.Fleet) returns (g: Fleet.Fleet)
    requires Fleet.Inv(f) && f.phase.Idle?
    ensures Fleet.Inv(g) && g.phase.Idle? && g.linked == |f.procs| && g.seen == f.seen + [|f.clients|]
    ensures g.clients[|f.clients|] == Fleet.Client(Fleet.LinkEpoch(f) + 1, true)
    ensures g.procs[g.linked].cur == Some(|f.clients|) && Fleet.Dead(g.procs[f.linked])
  {
    g := UpgradeBegins(f);
    var h := g;
    assert Fleet.NextOk(h, |f.procs|);
    g := OldRetires(g);
    h := g;
    Fleet.StepKeeps(g, Fleet.SetBase);
    g := Fleet.Next(g, Fleet.SetBase);
    Fleet.StepKeeps(g, Fleet.Swap);
    g := Fleet.Next(g, Fleet.Swap);
  }
}
