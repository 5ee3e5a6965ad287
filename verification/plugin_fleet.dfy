/**
 The generations of one plugin (pluginhost/process.go, pluginhost/link.go): the
 supervised processes behind one link, the client connected to each start, and
 the hot swap that retires the old process before the new one becomes visible.
 Clients and processes are named by their position in order of creation.
 */
module PluginFleet {

  import opened Wrappers

  /** One start of the plugin that passed its handshake. */
  datatype Client = Client(epoch: nat, up: bool)

  /** One supervised process instance; `exited` once its supervisor has returned. */
  datatype Proc = Proc(base: nat, num: nat, cur: Option<nat>, exited: bool)

  function ProcEpoch(p: Proc): nat {
    p.base + p.num
  }

  /** How far a hot upgrade has got; `Gone` after the plugin file disappeared. */
  datatype Phase =
    | Idle
    | Spawned(next: nat)
    | Retiring(next: nat)
    | Detached(next: nat, held: Option<nat>)
    | Failed(next: nat)
    | Based(next: nat)
    | Gone

  /** `seen` records, in order, every client that could be obtained through the link. */
  datatype Fleet = Fleet(clients: seq<Client>, procs: seq<Proc>, linked: nat, seen: seq<nat>, phase: Phase)

  datatype Action =
    | MarkUp(p: nat)
    | Crash(c: nat)
    | Exit(p: nat)
    | BeginUpgrade
    | AbortUpgrade
    | StopOld
    | Detach
    | FailOld
    | SetBase
    | Swap
    | Unload

  /** A link is made over a process that has been described, so that has started at least once. */
  function Load(starts: nat): Fleet
    requires starts > 0
  {
    Fleet([Client(starts, true)], [Proc(0, starts, Some(0), false)], 0, [0], Idle)
  }

  predicate WellFormed(f: Fleet) {
    && f.linked < |f.procs|
    && f.seen != []
    && forall i :: 0 <= i < |f.seen| ==> f.seen[i] < |f.clients|
  }

  function Last(f: Fleet): nat
    requires WellFormed(f)
  {
    f.seen[|f.seen| - 1]
  }

  /** The generation the link reports. */
  function LinkEpoch(f: Fleet): nat
    requires WellFormed(f)
  {
    ProcEpoch(f.procs[f.linked])
  }

  predicate IsDown(f: Fleet, cur: Option<nat>) {
    cur.Some? ==> cur.value < |f.clients| && !f.clients[cur.value].up
  }

  predicate Enabled(f: Fleet, a: Action)
    requires WellFormed(f)
  {
    match a
    case MarkUp(p) => p < |f.procs| && !f.procs[p].exited && IsDown(f, f.procs[p].cur)
    case Crash(c) => c < |f.clients|
    case Exit(p) => p < |f.procs|
    case BeginUpgrade => f.phase.Idle?
    case AbortUpgrade => f.phase.Spawned?
    case StopOld => f.phase.Spawned? && f.phase.next < |f.procs| && f.procs[f.phase.next].num > 0
    case Detach => f.phase.Retiring? && f.procs[f.linked].exited
    case FailOld => f.phase.Detached? && (f.phase.held.Some? ==> f.phase.held.value < |f.clients|)
    case SetBase =>
      && f.phase.Failed? && f.phase.next < |f.procs|
      && (f.procs[f.phase.next].cur.Some? ==> f.procs[f.phase.next].cur.value < |f.clients|)
    case Swap => f.phase.Based? && f.phase.next < |f.procs| && f.procs[f.phase.next].cur.Some?
    case Unload => f.phase.Idle? && f.procs[f.linked].exited
  }

  /** A start of process p succeeds: new client, next number, epoch stamped under the lock. */
  function MarkedUp(f: Fleet, p: nat): Fleet
    requires p < |f.procs|
  {
    var q := f.procs[p].(num := f.procs[p].num + 1, cur := Some(|f.clients|));
    f.(clients := f.clients + [Client(ProcEpoch(q), true)],
       procs := f.procs[p := q],
       seen := if p == f.linked then f.seen + [|f.clients|] else f.seen)
  }

  function Downed(f: Fleet, c: nat): Fleet
    requires c < |f.clients|
  {
    f.(clients := f.clients[c := f.clients[c].(up := false)])
  }

  /** The base moves to the old instance's final generation, and the current client's stamp with it. */
  function Rebased(f: Fleet, next: nat): Fleet
    requires WellFormed(f) && next < |f.procs|
    requires f.procs[next].cur.Some? ==> f.procs[next].cur.value < |f.clients|
  {
    var q := f.procs[next].(base := LinkEpoch(f));
    f.(clients := if q.cur.Some?
                  then f.clients[q.cur.value := f.clients[q.cur.value].(epoch := ProcEpoch(q))]
                  else f.clients,
       procs := f.procs[next := q],
       phase := Based(next))
  }

  function Next(f: Fleet, a: Action): Fleet
    requires WellFormed(f) && Enabled(f, a)
  {
    match a
    case MarkUp(p) => MarkedUp(f, p)
    case Crash(c) => Downed(f, c)
    case Exit(p) => f.(procs := f.procs[p := f.procs[p].(exited := true)])
    case BeginUpgrade => f.(procs := f.procs + [Proc(0, 0, None, false)], phase := Spawned(|f.procs|))
    case AbortUpgrade => f.(phase := Idle)
    case StopOld => f.(phase := Retiring(f.phase.next))
    case Detach =>
      f.(procs := f.procs[f.linked := f.procs[f.linked].(cur := None)],
         phase := Detached(f.phase.next, f.procs[f.linked].cur))
    case FailOld =>
      var g := f.(phase := Failed(f.phase.next));
      if f.phase.held.Some? then Downed(g, f.phase.held.value) else g
    case SetBase => Rebased(f, f.phase.next)
    case Swap =>
      f.(linked := f.phase.next,
         seen := f.seen + [f.procs[f.phase.next].cur.value],
         phase := Idle)
    case Unload => f.(procs := f.procs[f.linked := f.procs[f.linked].(cur := None)], phase := Gone)
  }

  // ----- What every step keeps -----

  /** Generations strictly increase in order of appearance. */
  ghost predicate Increasing(f: Fleet)
    requires WellFormed(f)
  {
    forall i, j :: 0 <= i < j < |f.seen| ==> f.clients[f.seen[i]].epoch < f.clients[f.seen[j]].epoch
  }

  /** Of all clients that could be obtained so far only the latest can still be up. */
  ghost predicate OnlyLatestUp(f: Fleet)
    requires WellFormed(f)
  {
    forall i :: 0 <= i < |f.seen| - 1 ==> !f.clients[f.seen[i]].up
  }

  ghost predicate LinkedOk(f: Fleet)
    requires WellFormed(f)
  {
    var p := f.procs[f.linked];
    && f.clients[Last(f)].epoch == ProcEpoch(p)
    && (p.cur == Some(Last(f)) || (p.cur == None && p.exited))
  }

  /** An instance being brought up: its client is not visible yet and carries its generation. */
  ghost predicate NextOk(f: Fleet, next: nat)
    requires WellFormed(f)
  {
    && next < |f.procs| && next != f.linked
    && (f.procs[next].num > 0 <==> f.procs[next].cur.Some?)
    && (f.procs[next].cur.Some? ==>
          var c := f.procs[next].cur.value;
          && c < |f.clients| && c !in f.seen
          && f.clients[c].epoch == ProcEpoch(f.procs[next]))
  }

  /** A process that can no longer hand out a client. */
  predicate Dead(p: Proc) {
    p.exited && p.cur.None?
  }

  ghost predicate PhaseOk(f: Fleet)
    requires WellFormed(f)
  {
    var prior := f.procs[f.linked];
    match f.phase
    case Idle => prior.cur.Some?
    case Spawned(n) => NextOk(f, n) && prior.cur.Some?
    case Retiring(n) => NextOk(f, n) && f.procs[n].num > 0 && prior.cur.Some?
    case Detached(n, held) => NextOk(f, n) && f.procs[n].num > 0 && Dead(prior) && held == Some(Last(f))
    case Failed(n) => NextOk(f, n) && f.procs[n].num > 0 && Dead(prior) && !f.clients[Last(f)].up
    case Based(n) =>
      && NextOk(f, n) && f.procs[n].num > 0 && Dead(prior) && !f.clients[Last(f)].up
      && f.procs[n].base == ProcEpoch(prior)
    case Gone => true
  }

  ghost predicate Inv(f: Fleet) {
    && WellFormed(f)
    && Increasing(f)
    && OnlyLatestUp(f)
    && LinkedOk(f)
    && PhaseOk(f)
  }

  /** What a caller that has looked at f before may still rely on in g. */
  ghost predicate Extends(f: Fleet, g: Fleet) {
    && WellFormed(f) && WellFormed(g)
    && f.seen <= g.seen
    && |f.clients| <= |g.clients| && |f.procs| <= |g.procs|
    && (forall i :: 0 <= i < |f.seen| ==> g.clients[f.seen[i]].epoch == f.clients[f.seen[i]].epoch)
    && (forall p :: 0 <= p < |f.procs| && Dead(f.procs[p]) ==> Dead(g.procs[p]))
    && (f.linked == g.linked || Dead(g.procs[f.linked]))
  }

  lemma LoadEstablishes(starts: nat)
    requires starts > 0
    ensures Inv(Load(starts))
  {
  }

  lemma MarkUpKeeps(f: Fleet, p: nat)
    requires Inv(f) && Enabled(f, MarkUp(p))
    ensures Inv(MarkedUp(f, p)) && Extends(f, MarkedUp(f, p))
  {
    var g := MarkedUp(f, p);
    assert forall i :: 0 <= i < |f.seen| ==> g.clients[f.seen[i]] == f.clients[f.seen[i]];
    if p == f.linked {
      assert f.procs[p].cur == Some(Last(f));
      assert Last(g) == |f.clients|;
    }
  }

  lemma CrashKeeps(f: Fleet, c: nat)
    requires Inv(f) && Enabled(f, Crash(c))
    ensures Inv(Downed(f, c)) && Extends(f, Downed(f, c))
  {
  }

  lemma RebaseKeeps(f: Fleet)
    requires Inv(f) && f.phase.Failed?
    ensures Inv(Rebased(f, f.phase.next)) && Extends(f, Rebased(f, f.phase.next))
  {
    var g := Rebased(f, f.phase.next);
    assert forall i :: 0 <= i < |f.seen| ==> f.seen[i] in f.seen && g.clients[f.seen[i]] == f.clients[f.seen[i]];
  }

  lemma SwapKeeps(f: Fleet)
    requires Inv(f) && f.phase.Based?
    ensures Enabled(f, Swap)
    ensures Inv(Next(f, Swap)) && Extends(f, Next(f, Swap))
  {
  }

  lemma RetireKeeps(f: Fleet, a: Action)
    requires Inv(f) && Enabled(f, a) && (a.StopOld? || a.Detach? || a.FailOld? || a.Unload?)
    ensures Inv(Next(f, a)) && Extends(f, Next(f, a))
  {
  }

  lemma StartKeeps(f: Fleet, a: Action)
    requires Inv(f) && Enabled(f, a) && (a.Exit? || a.BeginUpgrade? || a.AbortUpgrade?)
    ensures Inv(Next(f, a)) && Extends(f, Next(f, a))
  {
  }

  /** Every step keeps the invariant and everything an earlier look at the link relied on. */
  lemma StepKeeps(f: Fleet, a: Action)
    requires Inv(f) && Enabled(f, a)
    ensures Inv(Next(f, a)) && Extends(f, Next(f, a))
  {
    match a
    case MarkUp(p) => MarkUpKeeps(f, p);
    case Crash(c) => CrashKeeps(f, c);
    case SetBase => RebaseKeeps(f);
    case Swap => SwapKeeps(f);
    case StopOld => RetireKeeps(f, a);
    case Detach => RetireKeeps(f, a);
    case FailOld => RetireKeeps(f, a);
    case Unload => RetireKeeps(f, a);
    case _ => StartKeeps(f, a);
  }
}
