/**
 The session discipline of the remote drivers (pluginhost/remote.go,
 pluginhost/remote_writable.go) over the generations of PluginFleet.  Every
 atomic read a driver makes is a step of its own, so crashes, restarts and hot
 swaps fall between any two of them.
 */
module PluginSession {

  import opened Wrappers
  import Fleet = PluginFleet

  /** `last` and `issuer` are history: the session stored last, and the client that issued it. */
  datatype Driver = Driver(session: nat, epochAt: nat, connected: bool, last: nat, issuer: nat)

  const NEW_DRIVER := Driver(0, 0, false, 0, 0)

  /** Use stands for Read and Write, which share one discipline. */
  datatype Goal = Use | Close | Connect

  datatype Point =
    | Start
    | Fresh
    | OnProc(p: nat)
    | Got(p: nat, c: nat)
    | Holding(c: nat)
    | Cleared(c: nat)
    | Asked
    | Waiting(c: nat)
    | Replied(c: nat, sid: nat)

  /** A call in progress; `connecting` once a Connect is past releasing the old session. */
  datatype Op = Op(driver: nat, goal: Goal, session: nat, connecting: bool, at: Point)

  /** A session id handed out by a client to a driver; a frame carrying one. */
  datatype Issue = Issue(client: nat, driver: nat, session: nat)

  datatype State = State(fleet: Fleet.Fleet, drivers: map<nat, Driver>, ops: map<nat, Op>,
                         issued: set<Issue>, sent: seq<Issue>)

  datatype Action =
    | Plugin(a: Fleet.Action)
    | Create(d: nat)
    | Begin(o: nat, d: nat, goal: Goal)
    | CheckFresh(o: nat)
    | LoadLink(o: nat)
    | ReadCur(o: nat)
    | TakeIfUp(o: nat)
    | Compare(o: nat)
    | Send(o: nat)
    | Answer(o: nat, connected: bool)
    | TurnToConnect(o: nat)
    | CallConnect(o: nat)
    | Reply(o: nat, sid: nat)
    | Store(o: nat, connected: bool)
    | Quit(o: nat)

  function Initial(starts: nat): State
    requires starts > 0
  {
    State(Fleet.Load(starts), map[], map[], {}, [])
  }

  predicate Stale(s: State, d: Driver)
    requires Fleet.WellFormed(s.fleet)
  {
    d.epochAt != Fleet.LinkEpoch(s.fleet)
  }

  predicate LinkUp(s: State)
    requires Fleet.WellFormed(s.fleet)
  {
    var cur := s.fleet.procs[s.fleet.linked].cur;
    cur.Some? && cur.value < |s.fleet.clients| && s.fleet.clients[cur.value].up
  }

  predicate Knows(s: State, o: nat) {
    o in s.ops && s.ops[o].driver in s.drivers
  }

  /** The device gate: no two calls in progress on one driver. */
  predicate GateFree(s: State, d: nat) {
    forall o :: o in s.ops ==> s.ops[o].driver != d
  }

  predicate FreshIn(s: State, c: nat, sid: nat) {
    forall i :: i in s.issued ==> i.client != c || i.session != sid
  }

  /** With `gated` false, calls on one driver may overlap. */
  predicate Enabled(s: State, a: Action, gated: bool)
    requires Fleet.WellFormed(s.fleet)
  {
    match a
    case Plugin(b) => Fleet.Enabled(s.fleet, b)
    case Create(d) => d !in s.drivers
    case Begin(o, d, goal) => o !in s.ops && d in s.drivers && (gated ==> GateFree(s, d))
    case CheckFresh(o) =>
      && Knows(s, o) && s.ops[o].at.Start? && s.ops[o].session != 0
      && !Stale(s, s.drivers[s.ops[o].driver])
      && (s.ops[o].goal != Use ==> LinkUp(s))
    case LoadLink(o) => Knows(s, o) && s.ops[o].at.Fresh?
    case ReadCur(o) =>
      && o in s.ops && s.ops[o].at.OnProc? && s.ops[o].at.p < |s.fleet.procs|
      && s.fleet.procs[s.ops[o].at.p].cur.Some?
    case TakeIfUp(o) => o in s.ops && s.ops[o].at.Got? && s.ops[o].at.c < |s.fleet.clients|
    case Compare(o) =>
      && Knows(s, o) && s.ops[o].at.Holding? && !s.ops[o].connecting
      && s.ops[o].at.c < |s.fleet.clients|
      && s.fleet.clients[s.ops[o].at.c].epoch == s.drivers[s.ops[o].driver].epochAt
    case Send(o) => o in s.ops && s.ops[o].at.Cleared?
    case Answer(o, _) => Knows(s, o) && s.ops[o].at.Asked?
    case TurnToConnect(o) => o in s.ops && s.ops[o].goal == Connect && !s.ops[o].connecting
    case CallConnect(o) => o in s.ops && s.ops[o].at.Holding? && s.ops[o].connecting
    case Reply(o, sid) => o in s.ops && s.ops[o].at.Waiting? && sid != 0 && FreshIn(s, s.ops[o].at.c, sid)
    case Store(o, _) => Knows(s, o) && s.ops[o].at.Replied? && s.ops[o].at.c < |s.fleet.clients|
    case Quit(o) => Knows(s, o)
  }

  function At(s: State, o: nat, at: Point): State
    requires o in s.ops
  {
    s.(ops := s.ops[o := s.ops[o].(at := at)])
  }

  /** The old session is out of the way: the Connect goes on to acquire a client. */
  function Turned(s: State, o: nat): State
    requires o in s.ops
  {
    s.(ops := s.ops[o := s.ops[o].(connecting := true, at := Fresh)])
  }

  function Finish(s: State, o: nat, d: Driver): State
    requires o in s.ops
  {
    s.(ops := s.ops - {o}, drivers := s.drivers[s.ops[o].driver := d])
  }

  function Step(s: State, a: Action, gated: bool): State
    requires Fleet.WellFormed(s.fleet) && Enabled(s, a, gated)
  {
    match a
    case Plugin(b) => s.(fleet := Fleet.Next(s.fleet, b))
    case Create(d) => s.(drivers := s.drivers[d := NEW_DRIVER])
    case Begin(o, d, goal) =>
      s.(ops := s.ops[o := Op(d, goal, s.drivers[d].session, false, Start)],
         drivers := if goal == Use then s.drivers else s.drivers[d := s.drivers[d].(session := 0, connected := false)])
    case CheckFresh(o) => At(s, o, Fresh)
    case LoadLink(o) => At(s, o, OnProc(s.fleet.linked))
    case ReadCur(o) => At(s, o, Got(s.ops[o].at.p, s.fleet.procs[s.ops[o].at.p].cur.value))
    case TakeIfUp(o) =>
      if s.fleet.clients[s.ops[o].at.c].up then At(s, o, Holding(s.ops[o].at.c)) else At(s, o, OnProc(s.ops[o].at.p))
    case Compare(o) => At(s, o, Cleared(s.ops[o].at.c))
    case Send(o) =>
      var op := s.ops[o];
      At(s, o, Asked).(sent := s.sent + [Issue(op.at.c, op.driver, op.session)])
    case Answer(o, connected) =>
      if s.ops[o].goal == Use then Finish(s, o, s.drivers[s.ops[o].driver].(connected := connected))
      else if s.ops[o].goal == Connect then Turned(s, o)
      else s.(ops := s.ops - {o})
    case TurnToConnect(o) => Turned(s, o)
    case CallConnect(o) => At(s, o, Waiting(s.ops[o].at.c))
    case Reply(o, sid) =>
      At(s, o, Replied(s.ops[o].at.c, sid)).(
        issued := s.issued + {Issue(s.ops[o].at.c, s.ops[o].driver, sid)})
    case Store(o, connected) =>
      var c, sid := s.ops[o].at.c, s.ops[o].at.sid;
      Finish(s, o, Driver(sid, s.fleet.clients[c].epoch, connected, sid, c))
    case Quit(o) => Finish(s, o, s.drivers[s.ops[o].driver].(connected := false))
  }

  // ----- What every step keeps while the gate holds -----

  ghost predicate DriverOk(s: State, d: nat)
    requires Fleet.WellFormed(s.fleet) && d in s.drivers
  {
    var dr := s.drivers[d];
    && (dr.session == 0 || dr.session == dr.last)
    && (dr.connected ==> dr.session != 0)
    && (dr.last != 0 ==>
          && dr.issuer in s.fleet.seen
          && s.fleet.clients[dr.issuer].epoch == dr.epochAt
          && Issue(dr.issuer, d, dr.last) in s.issued)
  }

  ghost predicate PointOk(s: State, op: Op)
    requires Fleet.WellFormed(s.fleet) && op.driver in s.drivers
  {
    match op.at
    case Start => true
    case Fresh => true
    case OnProc(p) => p < |s.fleet.procs| && (p == s.fleet.linked || Fleet.Dead(s.fleet.procs[p]))
    case Got(p, c) =>
      p < |s.fleet.procs| && (p == s.fleet.linked || Fleet.Dead(s.fleet.procs[p])) && c in s.fleet.seen
    case Holding(c) => c in s.fleet.seen
    case Cleared(c) => !op.connecting && c == s.drivers[op.driver].issuer && s.drivers[op.driver].last != 0
    case Asked => !op.connecting
    case Waiting(c) => op.connecting && c in s.fleet.seen
    case Replied(c, sid) =>
      op.connecting && c in s.fleet.seen && sid != 0 && Issue(c, op.driver, sid) in s.issued
  }

  ghost predicate OpOk(s: State, op: Op)
    requires Fleet.WellFormed(s.fleet)
  {
    && op.driver in s.drivers
    && (op.goal == Use ==> !op.connecting && s.drivers[op.driver].session == op.session)
    && (op.session == 0 || op.session == s.drivers[op.driver].last)
    && (!op.connecting && !op.at.Start? ==> op.session != 0)
    && PointOk(s, op)
  }

  ghost predicate Gated(s: State) {
    forall o, q :: o in s.ops && q in s.ops && o != q ==> s.ops[o].driver != s.ops[q].driver
  }

  /** No client hands out the same id twice. */
  ghost predicate IdsDistinct(s: State) {
    forall i, j :: i in s.issued && j in s.issued && i.client == j.client && i.session == j.session ==> i == j
  }

  /** Every frame that carried a session went to the client that issued it to that driver. */
  ghost predicate SentToIssuer(s: State) {
    forall i :: 0 <= i < |s.sent| ==> s.sent[i] in s.issued
  }

  ghost predicate DriversOk(s: State)
    requires Fleet.WellFormed(s.fleet)
  {
    forall d :: d in s.drivers ==> DriverOk(s, d)
  }

  ghost predicate OpsOk(s: State)
    requires Fleet.WellFormed(s.fleet)
  {
    forall o :: o in s.ops ==> OpOk(s, s.ops[o])
  }

  ghost predicate Inv(s: State) {
    && Fleet.Inv(s.fleet)
    && DriversOk(s)
    && OpsOk(s)
    && Gated(s)
    && IdsDistinct(s)
    && SentToIssuer(s)
  }

  /** From s to t only op o on driver d, that driver, and the two records change. */
  ghost predicate Local(s: State, t: State, o: nat, d: nat) {
    && t.fleet == s.fleet
    && s.issued <= t.issued
    && t.drivers.Keys == s.drivers.Keys
    && (forall e :: e in s.drivers && e != d ==> t.drivers[e] == s.drivers[e])
    && t.ops - {o} == s.ops - {o}
    && (o in t.ops ==> t.ops[o].driver == d)
    && (forall q :: q in s.ops && q != o ==> s.ops[q].driver != d)
  }

  lemma OthersKeep(s: State, t: State, o: nat, d: nat, q: nat)
    requires Inv(s) && Local(s, t, o, d) && q in s.ops && q != o
    ensures q in t.ops && t.ops[q] == s.ops[q] && OpOk(t, t.ops[q])
  {
    assert q in (t.ops - {o}) && (t.ops - {o})[q] == (s.ops - {o})[q];
    assert OpOk(s, s.ops[q]);
  }

  lemma LocalKeeps(s: State, t: State, o: nat, d: nat)
    requires Inv(s) && Local(s, t, o, d)
    requires o in t.ops ==> OpOk(t, t.ops[o])
    requires d in t.drivers ==> DriverOk(t, d)
    ensures DriversOk(t) && OpsOk(t) && Gated(t)
  {
    forall q | q in t.ops && q != o
      ensures q in s.ops && t.ops[q] == s.ops[q] && OpOk(t, t.ops[q])
    {
      assert q in (s.ops - {o});
      OthersKeep(s, t, o, d, q);
    }
    forall e | e in t.drivers
      ensures DriverOk(t, e)
    {
      if e != d {
        assert DriverOk(s, e);
      }
    }
  }

  lemma SeenStays(f: Fleet.Fleet, g: Fleet.Fleet, c: nat)
    requires Fleet.Extends(f, g) && c in f.seen
    ensures c in g.seen && g.clients[c].epoch == f.clients[c].epoch
  {
    var i :| 0 <= i < |f.seen| && f.seen[i] == c;
    assert g.seen[i] == c;
  }

  /** Generations are distinct, so a generation names one client of the link. */
  lemma OneOfGeneration(f: Fleet.Fleet, c: nat, e: nat)
    requires Fleet.Inv(f) && c in f.seen && e in f.seen && f.clients[c].epoch == f.clients[e].epoch
    ensures c == e
  {
    var i :| 0 <= i < |f.seen| && f.seen[i] == c;
    var j :| 0 <= j < |f.seen| && f.seen[j] == e;
  }

  lemma PointStays(s: State, t: State, op: Op)
    requires Inv(s) && OpOk(s, op) && t.drivers == s.drivers && t.issued == s.issued
    requires Fleet.Extends(s.fleet, t.fleet)
    ensures OpOk(t, op)
  {
    match op.at
    case Got(p, c) => SeenStays(s.fleet, t.fleet, c);
    case Holding(c) => SeenStays(s.fleet, t.fleet, c);
    case Waiting(c) => SeenStays(s.fleet, t.fleet, c);
    case Replied(c, sid) => SeenStays(s.fleet, t.fleet, c);
    case _ =>
  }

  lemma PluginKeeps(s: State, b: Fleet.Action)
    requires Inv(s) && Fleet.Enabled(s.fleet, b)
    ensures Inv(s.(fleet := Fleet.Next(s.fleet, b)))
  {
    Fleet.StepKeeps(s.fleet, b);
    var t := s.(fleet := Fleet.Next(s.fleet, b));
    forall d | d in t.drivers
      ensures DriverOk(t, d)
    {
      assert DriverOk(s, d);
      if s.drivers[d].last != 0 {
        SeenStays(s.fleet, t.fleet, s.drivers[d].issuer);
      }
    }
    forall o | o in t.ops
      ensures OpOk(t, t.ops[o])
    {
      assert OpOk(s, s.ops[o]);
      PointStays(s, t, s.ops[o]);
    }
  }

  lemma CreateKeeps(s: State, d: nat)
    requires Inv(s) && Enabled(s, Create(d), true)
    ensures Inv(Step(s, Create(d), true))
  {
    var t := Step(s, Create(d), true);
    forall e | e in t.drivers
      ensures DriverOk(t, e)
    {
      assert e != d ==> DriverOk(s, e);
    }
    forall o | o in t.ops
      ensures OpOk(t, t.ops[o])
    {
      assert OpOk(s, s.ops[o]);
    }
  }

  lemma BeginKeeps(s: State, o: nat, d: nat, goal: Goal)
    requires Inv(s) && Enabled(s, Begin(o, d, goal), true)
    ensures Inv(Step(s, Begin(o, d, goal), true))
  {
    assert DriverOk(s, d);
    LocalKeeps(s, Step(s, Begin(o, d, goal), true), o, d);
  }

  /** A step that only moves op o on. */
  lemma MoveKeeps(s: State, o: nat, op: Op)
    requires Inv(s) && o in s.ops && op.driver == s.ops[o].driver && OpOk(s, op)
    ensures Inv(s.(ops := s.ops[o := op]))
  {
    var t := s.(ops := s.ops[o := op]);
    assert OpOk(s, s.ops[o]) && DriverOk(s, op.driver);
    assert t.ops - {o} == s.ops - {o};
    assert OpOk(t, op) && DriverOk(t, op.driver);
    LocalKeeps(s, t, o, op.driver);
  }

  lemma AcquireKeeps(s: State, a: Action)
    requires Inv(s) && Enabled(s, a, true) && (a.LoadLink? || a.ReadCur? || a.TakeIfUp? || a.CallConnect?)
    ensures Inv(Step(s, a, true))
  {
    var op := s.ops[a.o];
    assert OpOk(s, op);
    if a.ReadCur? {
      CurIsSeen(s.fleet, op.at.p);
    }
    MoveKeeps(s, a.o, op.(at := Step(s, a, true).ops[a.o].at));
  }

  lemma CheckKeeps(s: State, o: nat)
    requires Inv(s) && Enabled(s, CheckFresh(o), true)
    ensures Inv(Step(s, CheckFresh(o), true))
  {
    assert OpOk(s, s.ops[o]);
    MoveKeeps(s, o, s.ops[o].(at := Fresh));
  }

  lemma CompareKeeps(s: State, o: nat)
    requires Inv(s) && Enabled(s, Compare(o), true)
    ensures Inv(Step(s, Compare(o), true))
  {
    assert OpOk(s, s.ops[o]);
    ComparedIsIssuer(s, o);
    MoveKeeps(s, o, s.ops[o].(at := Cleared(s.ops[o].at.c)));
  }

  lemma TurnKeeps(s: State, o: nat)
    requires Inv(s) && o in s.ops && s.ops[o].goal == Connect
    ensures Inv(Turned(s, o))
  {
    assert OpOk(s, s.ops[o]);
    MoveKeeps(s, o, s.ops[o].(connecting := true, at := Fresh));
  }

  lemma CurIsSeen(f: Fleet.Fleet, p: nat)
    requires Fleet.Inv(f) && p < |f.procs| && (p == f.linked || Fleet.Dead(f.procs[p])) && f.procs[p].cur.Some?
    ensures f.procs[p].cur.value in f.seen
  {
  }

  /** The second look at the generation settles whom the call is about to talk to. */
  lemma ComparedIsIssuer(s: State, o: nat)
    requires Inv(s) && Enabled(s, Compare(o), true)
    ensures var dr := s.drivers[s.ops[o].driver];
            dr.last != 0 && dr.last == s.ops[o].session && dr.issuer == s.ops[o].at.c
  {
    var op := s.ops[o];
    assert OpOk(s, op) && DriverOk(s, op.driver);
    OneOfGeneration(s.fleet, op.at.c, s.drivers[op.driver].issuer);
  }

  lemma SendKeeps(s: State, o: nat)
    requires Inv(s) && Enabled(s, Send(o), true)
    ensures Inv(Step(s, Send(o), true))
  {
    var op := s.ops[o];
    assert OpOk(s, op) && DriverOk(s, op.driver);
    MoveKeeps(s, o, op.(at := Asked));
    var t := At(s, o, Asked);
    SentKeeps(t, Issue(op.at.c, op.driver, op.session));
  }

  lemma SentKeeps(s: State, i: Issue)
    requires Inv(s) && i in s.issued
    ensures Inv(s.(sent := s.sent + [i]))
  {
    var t := s.(sent := s.sent + [i]);
    forall d | d in t.drivers
      ensures DriverOk(t, d)
    {
      assert DriverOk(s, d);
    }
    forall o | o in t.ops
      ensures OpOk(t, t.ops[o])
    {
      assert OpOk(s, s.ops[o]);
    }
  }

  lemma ReplyKeeps(s: State, o: nat, sid: nat)
    requires Inv(s) && Enabled(s, Reply(o, sid), true)
    ensures Inv(Step(s, Reply(o, sid), true))
  {
    var t := Step(s, Reply(o, sid), true);
    assert OpOk(s, s.ops[o]) && DriverOk(s, s.ops[o].driver);
    assert t.ops - {o} == s.ops - {o};
    LocalKeeps(s, t, o, s.ops[o].driver);
  }

  /** A call ends and leaves its driver as dr. */
  lemma FinishKeeps(s: State, o: nat, dr: Driver)
    requires Inv(s) && Knows(s, o)
    requires DriverOk(s.(drivers := s.drivers[s.ops[o].driver := dr]), s.ops[o].driver)
    ensures Inv(Finish(s, o, dr))
  {
    LocalKeeps(s, Finish(s, o, dr), o, s.ops[o].driver);
  }

  lemma EndsKeep(s: State, a: Action)
    requires Inv(s) && Enabled(s, a, true) && (a.Store? || a.Quit? || (a.Answer? && s.ops[a.o].goal == Use))
    ensures Inv(Step(s, a, true))
  {
    var op := s.ops[a.o];
    assert OpOk(s, op) && DriverOk(s, op.driver);
    FinishKeeps(s, a.o, Step(s, a, true).drivers[op.driver]);
  }

  lemma AnswerKeeps(s: State, o: nat, connected: bool)
    requires Inv(s) && Enabled(s, Answer(o, connected), true) && s.ops[o].goal != Use
    ensures Inv(Step(s, Answer(o, connected), true))
  {
    if s.ops[o].goal == Connect {
      TurnKeeps(s, o);
    } else {
      var op := s.ops[o];
      assert OpOk(s, op) && DriverOk(s, op.driver);
      assert s.drivers[op.driver := s.drivers[op.driver]] == s.drivers;
      FinishKeeps(s, o, s.drivers[op.driver]);
    }
  }

  lemma StepKeeps(s: State, a: Action)
    requires Inv(s) && Enabled(s, a, true)
    ensures Inv(Step(s, a, true))
  {
    match a
    case Plugin(b) => PluginKeeps(s, b);
    case Create(d) => CreateKeeps(s, d);
    case Begin(o, d, goal) => BeginKeeps(s, o, d, goal);
    case Send(o) => SendKeeps(s, o);
    case Reply(o, sid) => ReplyKeeps(s, o, sid);
    case Answer(o, connected) => if s.ops[o].goal == Use { EndsKeep(s, a); } else { AnswerKeeps(s, o, connected); }
    case Store(o, _) => EndsKeep(s, a);
    case Quit(o) => EndsKeep(s, a);
    case CheckFresh(o) => CheckKeeps(s, o);
    case Compare(o) => CompareKeeps(s, o);
    case TurnToConnect(o) => TurnKeeps(s, o);
    case _ => AcquireKeeps(s, a);
  }

  // ----- Whole runs -----

  /** Any list of actions is a run: one that is not enabled when its turn comes changes nothing. */
  function Run(s: State, actions: seq<Action>, gated: bool): State
    decreases |actions|
  {
    if actions == [] || !Fleet.WellFormed(s.fleet) then s
    else if Enabled(s, actions[0], gated) then Run(Step(s, actions[0], gated), actions[1..], gated)
    else Run(s, actions[1..], gated)
  }

  lemma {:induction false} RunKeeps(s: State, actions: seq<Action>)
    requires Inv(s)
    ensures Inv(Run(s, actions, true))
    decreases |actions|
  {
    if actions != [] {
      if Enabled(s, actions[0], true) {
        StepKeeps(s, actions[0]);
        RunKeeps(Step(s, actions[0], true), actions[1..]);
      } else {
        RunKeeps(s, actions[1..]);
      }
    }
  }

  /**
   In every interleaving of crashes, restarts, hot swaps and gated calls, a frame
   carrying a session went to the very client that issued that session to the
   sending driver, and to no other driver's session.
   */
  lemma SessionsReachTheirIssuer(starts: nat, actions: seq<Action>)
    requires starts > 0
    ensures var s := Run(Initial(starts), actions, true);
            forall i :: 0 <= i < |s.sent| ==>
              && s.sent[i] in s.issued
              && forall j :: j in s.issued && j.client == s.sent[i].client && j.session == s.sent[i].session
                   ==> j.driver == s.sent[i].driver
  {
    Fleet.LoadEstablishes(starts);
    RunKeeps(Initial(starts), actions);
  }

  /**
   Generations rise strictly in order of appearance and only the newest
   incarnation can be up; a held session is stale exactly when its issuer is no
   longer the newest.
   */
  lemma StaleExactlyWhenReplaced(starts: nat, actions: seq<Action>, d: nat)
    requires starts > 0
    ensures var s := Run(Initial(starts), actions, true);
            && Fleet.WellFormed(s.fleet) && Fleet.Increasing(s.fleet) && Fleet.OnlyLatestUp(s.fleet)
            && (d in s.drivers && s.drivers[d].session != 0 ==>
                  (Stale(s, s.drivers[d]) <==> s.drivers[d].issuer != Fleet.Last(s.fleet)))
  {
    Fleet.LoadEstablishes(starts);
    RunKeeps(Initial(starts), actions);
    var s := Run(Initial(starts), actions, true);
    if d in s.drivers && s.drivers[d].session != 0 {
      assert DriverOk(s, d);
      if !Stale(s, s.drivers[d]) {
        OneOfGeneration(s.fleet, s.drivers[d].issuer, Fleet.Last(s.fleet));
      }
    }
  }

  /** What IsConnected reports: a session of the client that is current, and it is up. */
  predicate IsConnected(s: State, d: nat)
    requires Fleet.WellFormed(s.fleet) && d in s.drivers
  {
    s.drivers[d].connected && !Stale(s, s.drivers[d]) && LinkUp(s)
  }

  lemma ConnectedMeansUsable(s: State, d: nat)
    requires Inv(s) && d in s.drivers && IsConnected(s, d)
    ensures var dr := s.drivers[d];
            && dr.session != 0 && Issue(dr.issuer, d, dr.session) in s.issued
            && s.fleet.procs[s.fleet.linked].cur == Some(dr.issuer) && s.fleet.clients[dr.issuer].up
  {
    assert DriverOk(s, d);
    OneOfGeneration(s.fleet, s.drivers[d].issuer, Fleet.Last(s.fleet));
  }

  // ----- Why the gate is needed -----

  lemma {:induction false} RunExtends(s: State, actions: seq<Action>, a: Action, gated: bool)
    requires var t := Run(s, actions, gated); Fleet.WellFormed(t.fleet) && Enabled(t, a, gated)
    ensures Run(s, actions + [a], gated) == Step(Run(s, actions, gated), a, gated)
    decreases |actions|
  {
    if actions == [] || !Fleet.WellFormed(s.fleet) {
      assert [a][1..] == [];
      assert actions == [] ==> actions + [a] == [a];
    } else {
      assert (actions + [a])[1..] == actions[1..] + [a];
      var t := if Enabled(s, actions[0], gated) then Step(s, actions[0], gated) else s;
      RunExtends(t, actions[1..], a, gated);
    }
  }

  ghost predicate Reaches(actions: seq<Action>, s: State) {
    s == Run(Initial(1), actions, false) && Fleet.WellFormed(s.fleet)
  }

  lemma Advance(actions: seq<Action>, s: State, a: Action) returns (more: seq<Action>, t: State)
    requires Reaches(actions, s) && Enabled(s, a, false)
    requires Fleet.WellFormed(Step(s, a, false).fleet)
    ensures t == Step(s, a, false) && Reaches(more, t)
  {
    more, t := actions + [a], Step(s, a, false);
    RunExtends(Initial(1), actions, a, false);
  }

  predicate CurrentUp(s: State, c: nat)
    requires Fleet.WellFormed(s.fleet)
  {
    s.fleet.procs[s.fleet.linked].cur == Some(c) && c < |s.fleet.clients| && s.fleet.clients[c].up
  }

  lemma Acquires(actions: seq<Action>, s: State, o: nat, c: nat) returns (more: seq<Action>, t: State)
    requires Reaches(actions, s) && Knows(s, o) && s.ops[o].at.Fresh? && CurrentUp(s, c)
    ensures Reaches(more, t) && t == At(s, o, Holding(c))
  {
    more, t := Advance(actions, s, LoadLink(o));
    more, t := Advance(more, t, ReadCur(o));
    more, t := Advance(more, t, TakeIfUp(o));
    assert t.ops == At(s, o, Holding(c)).ops;
  }

  lemma StartsConnect(actions: seq<Action>, s: State, o: nat, d: nat) returns (more: seq<Action>, t: State)
    requires Reaches(actions, s) && o !in s.ops && d in s.drivers
    ensures Reaches(more, t)
    ensures var op := Op(d, Connect, s.drivers[d].session, true, Fresh);
            t == s.(ops := s.ops[o := op], drivers := s.drivers[d := s.drivers[d].(session := 0, connected := false)])
  {
    more, t := Advance(actions, s, Begin(o, d, Connect));
    more, t := Advance(more, t, TurnToConnect(o));
    assert t.ops == s.ops[o := Op(d, Connect, s.drivers[d].session, true, Fresh)];
  }

  lemma EndsConnect(actions: seq<Action>, s: State, o: nat, sid: nat, c: nat) returns (more: seq<Action>, t: State)
    requires Reaches(actions, s) && Knows(s, o) && s.ops[o].at == Holding(c) && s.ops[o].connecting
    requires c < |s.fleet.clients| && sid != 0 && FreshIn(s, c, sid)
    ensures Reaches(more, t)
    ensures t == Finish(s, o, Driver(sid, s.fleet.clients[c].epoch, true, sid, c)).(
                   issued := s.issued + {Issue(c, s.ops[o].driver, sid)})
  {
    more, t := Advance(actions, s, CallConnect(o));
    more, t := Advance(more, t, Reply(o, sid));
    more, t := Advance(more, t, Store(o, true));
    assert t.ops == s.ops - {o};
  }

  /** An undisturbed Connect stores the id it was given with the generation that gave it. */
  lemma ConnectsTo(actions: seq<Action>, s: State, o: nat, d: nat, sid: nat, c: nat)
    returns (more: seq<Action>, t: State)
    requires Reaches(actions, s) && o !in s.ops && d in s.drivers && sid != 0 && FreshIn(s, c, sid)
    requires CurrentUp(s, c)
    ensures Reaches(more, t) && t.fleet == s.fleet && t.ops == s.ops && t.sent == s.sent
    ensures t.issued == s.issued + {Issue(c, d, sid)}
    ensures t.drivers == s.drivers[d := Driver(sid, s.fleet.clients[c].epoch, true, sid, c)]
  {
    more, t := StartsConnect(actions, s, o, d);
    more, t := Acquires(more, t, o, c);
    more, t := EndsConnect(more, t, o, sid, c);
    assert t.ops == s.ops;
  }

  /** A read whose session was captured and judged fresh goes out to whatever client the driver now names. */
  lemma ReadsFrom(actions: seq<Action>, s: State, o: nat, c: nat) returns (more: seq<Action>, t: State)
    requires Reaches(actions, s) && Knows(s, o) && s.ops[o].at.Fresh? && !s.ops[o].connecting
    requires CurrentUp(s, c) && s.fleet.clients[c].epoch == s.drivers[s.ops[o].driver].epochAt
    ensures Reaches(more, t) && t.issued == s.issued
    ensures t.sent == s.sent + [Issue(c, s.ops[o].driver, s.ops[o].session)]
  {
    more, t := Acquires(actions, s, o, c);
    more, t := Advance(more, t, Compare(o));
    more, t := Advance(more, t, Send(o));
  }

  lemma RestartedOnce(actions: seq<Action>, s: State) returns (more: seq<Action>, t: State)
    requires Reaches(actions, s) && s.fleet == Fleet.Load(1)
    ensures Reaches(more, t) && t == s.(fleet := t.fleet) && CurrentUp(t, 1)
    ensures t.fleet.clients[1].epoch == 2
  {
    more, t := Advance(actions, s, Plugin(Fleet.Crash(0)));
    more, t := Advance(more, t, Plugin(Fleet.MarkUp(0)));
  }

  /** Two drivers, 0 connected; a read on it has captured session 1 and found it fresh. */
  lemma ReadInFlight() returns (actions: seq<Action>, s: State)
    ensures Reaches(actions, s) && s.fleet == Fleet.Load(1) && s.sent == []
    ensures s.drivers.Keys == {0, 1} && s.ops == map[1 := Op(0, Use, 1, false, Fresh)]
    ensures s.issued == {Issue(0, 0, 1)}
  {
    actions, s := [], Initial(1);
    actions, s := Advance(actions, s, Create(0));
    actions, s := Advance(actions, s, Create(1));
    actions, s := ConnectsTo(actions, s, 0, 0, 1, 0);
    actions, s := Advance(actions, s, Begin(1, 0, Use));
    actions, s := Advance(actions, s, CheckFresh(1));
  }

  /**
   The generation checks alone are not enough: when a read overlaps a reconnect
   of the same driver, its old session id can reach the new process, where it is
   another driver's session.  The device gate is what excludes this.
   */
  lemma OverlapMisdirects() returns (actions: seq<Action>)
    ensures var s := Run(Initial(1), actions, false);
            && |s.sent| == 1 && s.sent[0] !in s.issued
            && exists d :: d != s.sent[0].driver && Issue(s.sent[0].client, d, s.sent[0].session) in s.issued
  {
    var s;
    actions, s := ReadInFlight();
    actions, s := RestartedOnce(actions, s);
    actions, s := ConnectsTo(actions, s, 2, 1, 1, 1);
    actions, s := ConnectsTo(actions, s, 3, 0, 2, 1);
    actions, s := ReadsFrom(actions, s, 1, 1);
    assert s.sent[0] == Issue(1, 0, 1) && Issue(1, 1, 1) in s.issued;
  }

  /** Every frame ever sent went to the client that issued its session to the sending driver. */
  ghost predicate SessionsSafe(gated: bool) {
    forall starts: nat, actions :: starts > 0 ==> SentToIssuer(Run(Initial(starts), actions, gated))
  }

  /** Sessions reach their issuer in every interleaving exactly when calls on one driver are kept apart. */
  lemma GateIsNeededExactly(gated: bool)
    ensures SessionsSafe(gated) <==> gated
  {
    if gated {
      forall starts: nat, actions | starts > 0
        ensures SentToIssuer(Run(Initial(starts), actions, gated))
      {
        SessionsReachTheirIssuer(starts, actions);
      }
    } else {
      var actions := OverlapMisdirects();
      assert !SentToIssuer(Run(Initial(1), actions, false));
    }
  }
}
