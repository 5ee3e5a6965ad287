/**
 One scan job over a virtual target list (devicescan/engine.go, job.go,
 prefilter.go): batches of at most `limit` targets, a cheap reachability stage, a
 probe stage, cancellation at any moment, and continuation batch by batch.
 Every section under the engine's mutex, and every dispatch decision, is a step.
 */
module ScanJob {

  import opened Decimal

  datatype Device = Device(host: string, port: int, unit: int, extra: string)

  datatype JobState = Running | Done | Canceled

  /** The way of one target through its batch; Dead and Probed targets have been evaluated. */
  datatype Phase = Waiting | Dialing | Kept | Dead | Probing | Probed | Abandoned

  /** One started batch; `finished` once its doneCh is closed. */
  datatype Batch = Batch(start: nat, phases: seq<Phase>, probing: bool, finished: bool)

  /** What the caller chose once and for all. */
  datatype Plan = Plan(size: nat, limit: nat, prefilter: bool, broadcast: nat -> bool)

  /**
   `canceled` is the state of the current context.  The batches so far are listed
   in order, the current one last; `evaluated` is history: the targets that were
   dialled dead or probed, by their place in the virtual list.
   */
  datatype Job = Job(requested: nat, planned: nat, offset: nat, batchStart: nat, truncated: bool,
                     state: JobState, scannedInBatch: nat, devices: seq<Device>, seen: set<string>,
                     canceled: bool, batches: seq<Batch>, evaluated: set<nat>)

  datatype DialResult = Reached | Unreachable | LocalFault

  datatype Action =
    | Dial(g: nat, i: nat)
    | DialEnd(g: nat, i: nat, result: DialResult)
    | BreakDial(g: nat)
    | StageTwo(g: nat)
    | Probe(g: nat, i: nat)
    | ProbeEnd(g: nat, i: nat, found: seq<Device>)
    | BreakProbe(g: nat)
    | Finish(g: nat)
    | Cancel
    | Continue(awaited: nat)

  function Fresh(plan: Plan, start: nat): Batch
    requires start <= plan.size
  {
    var n := if plan.size - start < plan.limit then plan.size - start else plan.limit;
    Batch(start, seq(n, i => if plan.prefilter then Waiting else Kept), !plan.prefilter, false)
  }

  /** Submit, and Continue over what the job already holds. */
  function Started(plan: Plan, job: Job, start: nat): Job
    requires start <= plan.size
  {
    var b := Fresh(plan, start);
    job.(requested := plan.size, planned := |b.phases|, offset := start + |b.phases|, batchStart := start,
         truncated := start + |b.phases| < plan.size, state := Running, scannedInBatch := 0, canceled := false,
         batches := job.batches + [b])
  }

  function Submitted(plan: Plan): Job {
    Started(plan, Job(0, 0, 0, 0, false, Running, 0, [], {}, false, [], {}), 0)
  }

  // ----- Accepting devices -----

  const NUL := '\0'

  function KeyOf(d: Device): string {
    d.host + [NUL] + Itoa(d.port) + [NUL] + Itoa(d.unit)
  }

  function AcceptAll(devices: seq<Device>, seen: set<string>, found: seq<Device>): (seq<Device>, set<string>) {
    if found == [] then (devices, seen)
    else
      var (ds, keys) := AcceptAll(devices, seen, found[..|found| - 1]);
      var d := found[|found| - 1];
      if KeyOf(d) in keys then (ds, keys) else (ds + [d], keys + {KeyOf(d)})
  }

  // ----- Snapshot -----

  function CanceledMidBatch(job: Job): bool {
    job.state == Canceled && job.scannedInBatch < job.planned
  }

  function Remaining(job: Job): int {
    var r := job.requested - job.offset + if CanceledMidBatch(job) then job.planned - job.scannedInBatch else 0;
    if r < 0 then 0 else r
  }

  function ScannedTotal(job: Job): nat {
    job.batchStart + job.scannedInBatch
  }

  // ----- Steps -----

  function Current(job: Job): Batch
    requires job.batches != []
  {
    job.batches[|job.batches| - 1]
  }

  predicate InBatch(job: Job, g: nat, i: nat, ph: Phase) {
    g < |job.batches| && i < |job.batches[g].phases| && job.batches[g].phases[i] == ph
  }

  predicate None(phases: seq<Phase>, ph: Phase) {
    forall i :: 0 <= i < |phases| ==> phases[i] != ph
  }

  predicate Enabled(plan: Plan, job: Job, a: Action) {
    match a
    case Dial(g, i) =>
      InBatch(job, g, i, Waiting) && !job.batches[g].probing
    case DialEnd(g, i, _) => InBatch(job, g, i, Dialing)
    case BreakDial(g) => g < |job.batches| && !job.batches[g].probing && job.canceled
    case StageTwo(g) =>
      && g < |job.batches| && !job.batches[g].probing
      && None(job.batches[g].phases, Waiting) && None(job.batches[g].phases, Dialing)
    case Probe(g, i) => InBatch(job, g, i, Kept) && job.batches[g].probing && !job.batches[g].finished
    case ProbeEnd(g, i, _) => InBatch(job, g, i, Probing)
    case BreakProbe(g) =>
      g < |job.batches| && job.batches[g].probing && !job.batches[g].finished && job.canceled
    case Finish(g) =>
      && g < |job.batches| && job.batches[g].probing && !job.batches[g].finished
      && None(job.batches[g].phases, Kept) && None(job.batches[g].phases, Probing)
    case Cancel => true
    case Continue(awaited) =>
      && awaited < |job.batches| && job.batches[awaited].finished && job.state != Running
      && job.batchStart <= plan.size && job.offset <= plan.size
  }

  function Advanced(batches: seq<Batch>, g: nat, i: nat, ph: Phase): seq<Batch>
    requires g < |batches| && i < |batches[g].phases|
  {
    batches[g := batches[g].(phases := batches[g].phases[i := ph])]
  }

  function SetPhase(job: Job, g: nat, i: nat, ph: Phase): Job
    requires g < |job.batches| && i < |job.batches[g].phases|
  {
    job.(batches := Advanced(job.batches, g, i, ph))
  }

  /** The target counts as scanned, unless the job has been cancelled meanwhile. */
  function Evaluated(job: Job, g: nat, i: nat, ph: Phase): Job
    requires g < |job.batches| && i < |job.batches[g].phases|
  {
    if job.canceled then SetPhase(job, g, i, Abandoned)
    else SetPhase(job, g, i, ph).(scannedInBatch := job.scannedInBatch + 1,
                                  evaluated := job.evaluated + {job.batches[g].start + i})
  }

  /** A probe has returned with these devices. */
  function Answered(job: Job, g: nat, i: nat, found: seq<Device>): Job
    requires g < |job.batches| && i < |job.batches[g].phases|
  {
    var t := Evaluated(job, g, i, Probed);
    if job.canceled then t
    else
      var accepted := AcceptAll(job.devices, job.seen, found);
      t.(devices := accepted.0, seen := accepted.1)
  }

  /** The run of batch g ends; a terminal state is never overwritten. */
  function Ended(job: Job, g: nat): Job
    requires g < |job.batches|
  {
    job.(batches := job.batches[g := job.batches[g].(finished := true)],
         state := if job.state == Running then Done else job.state)
  }

  function Continued(plan: Plan, job: Job): Job
    requires job.batchStart <= plan.size && job.offset <= plan.size
  {
    if Remaining(job) <= 0 then job
    else Started(plan, job, if CanceledMidBatch(job) then job.batchStart else job.offset)
  }

  function Abandon(phases: seq<Phase>, ph: Phase): seq<Phase> {
    seq(|phases|, i requires 0 <= i < |phases| => if phases[i] == ph then Abandoned else phases[i])
  }

  function SetBatch(job: Job, g: nat, b: Batch): Job
    requires g < |job.batches|
  {
    job.(batches := job.batches[g := b])
  }

  function Step(plan: Plan, job: Job, a: Action): Job
    requires Enabled(plan, job, a)
  {
    match a
    case Dial(g, i) => SetPhase(job, g, i, if plan.broadcast(job.batches[g].start + i) then Kept else Dialing)
    case DialEnd(g, i, result) =>
      if result == Reached then SetPhase(job, g, i, Kept)
      else if job.canceled then SetPhase(job, g, i, Abandoned)
      else if result == LocalFault then SetPhase(job, g, i, Kept)
      else Evaluated(job, g, i, Dead)
    case BreakDial(g) =>
      SetBatch(job, g, job.batches[g].(phases := Abandon(job.batches[g].phases, Waiting)))
    case StageTwo(g) => SetBatch(job, g, job.batches[g].(probing := true))
    case Probe(g, i) => SetPhase(job, g, i, Probing)
    case ProbeEnd(g, i, found) => Answered(job, g, i, found)
    case BreakProbe(g) =>
      SetBatch(job, g, job.batches[g].(phases := Abandon(job.batches[g].phases, Kept)))
    case Finish(g) => Ended(job, g)
    case Cancel => if job.state == Running then job.(state := Canceled, canceled := true) else job
    case Continue(_) => Continued(plan, job)
  }

  // ----- What every step keeps -----

  function Settled(ph: Phase): nat {
    if ph == Dead || ph == Probed then 1 else 0
  }

  function Count(phases: seq<Phase>): (n: nat)
    ensures n <= |phases|
  {
    if phases == [] then 0 else Count(phases[..|phases| - 1]) + Settled(phases[|phases| - 1])
  }

  lemma {:induction false} CountUpdate(phases: seq<Phase>, i: nat, ph: Phase)
    requires i < |phases|
    ensures Count(phases[i := ph]) + Settled(phases[i]) == Count(phases) + Settled(ph)
  {
    var n := |phases| - 1;
    if i == n {
      assert phases[i := ph][..n] == phases[..n];
    } else {
      CountUpdate(phases[..n], i, ph);
      assert phases[i := ph][..n] == phases[..n][i := ph];
    }
  }

  lemma {:induction false} AllSettled(phases: seq<Phase>)
    requires Count(phases) == |phases|
    ensures forall i :: 0 <= i < |phases| ==> Settled(phases[i]) == 1
  {
    if phases != [] {
      AllSettled(phases[..|phases| - 1]);
    }
  }

  lemma {:induction false} NoneSettled(phases: seq<Phase>)
    requires forall i :: 0 <= i < |phases| ==> Settled(phases[i]) == 0
    ensures Count(phases) == 0
  {
    if phases != [] {
      NoneSettled(phases[..|phases| - 1]);
    }
  }

  lemma {:induction false} CountSettled(phases: seq<Phase>)
    requires forall i :: 0 <= i < |phases| ==> Settled(phases[i]) == 1
    ensures Count(phases) == |phases|
  {
    if phases != [] {
      CountSettled(phases[..|phases| - 1]);
    }
  }

  lemma {:induction false} CountAbandon(phases: seq<Phase>, ph: Phase)
    requires Settled(ph) == 0
    ensures Count(Abandon(phases, ph)) == Count(phases)
  {
    if phases != [] {
      var n := |phases| - 1;
      CountAbandon(phases[..n], ph);
      assert Abandon(phases, ph)[..n] == Abandon(phases[..n], ph);
    }
  }

  /** The phases a batch can show at its stage, and while its context is live or cancelled. */
  ghost predicate BatchOk(b: Batch, canceled: bool) {
    && (b.finished ==> b.probing)
    && forall i :: 0 <= i < |b.phases| ==> PhaseOk(b.probing, b.finished, canceled, b.phases[i])
  }

  predicate PhaseOk(probing: bool, finished: bool, canceled: bool, ph: Phase) {
    && (ph == Abandoned ==> canceled)
    && (probing ==> ph != Waiting && ph != Dialing)
    && (!probing ==> ph != Probing && ph != Probed)
    && (finished ==> ph != Kept && ph != Probing)
  }

  ghost predicate Recorded(b: Batch, evaluated: set<nat>) {
    forall i :: 0 <= i < |b.phases| && Settled(b.phases[i]) == 1 ==> b.start + i in evaluated
  }

  /** The counters describe the current batch, which lies inside the virtual list. */
  ghost predicate Booked(plan: Plan, job: Job) {
    && job.batches != []
    && var b := Current(job);
       && job.batchStart == b.start && job.planned == |b.phases| && job.requested == plan.size
       && job.offset == job.batchStart + job.planned <= plan.size
       && (job.truncated <==> job.offset < plan.size)
       && job.scannedInBatch == Count(b.phases)
       && (b.start < plan.size && plan.limit > 0 ==> job.planned > 0)
  }

  ghost predicate StateOk(job: Job)
    requires job.batches != []
  {
    && (job.state == Canceled <==> job.canceled)
    && (job.state == Done ==> Current(job).finished)
    && (job.state == Running ==> !Current(job).finished)
  }

  /** A batch whose workers have all left. */
  ghost predicate Closed(b: Batch) {
    && b.finished && b.probing
    && forall i :: 0 <= i < |b.phases| ==> b.phases[i] == Dead || b.phases[i] == Probed || b.phases[i] == Abandoned
  }

  ghost predicate Inv(plan: Plan, job: Job) {
    && Booked(plan, job)
    && StateOk(job)
    && BatchOk(Current(job), job.canceled)
    && (forall g :: 0 <= g < |job.batches| - 1 ==> Closed(job.batches[g]))
    && Recorded(Current(job), job.evaluated)
    && (forall v :: 0 <= v < job.batchStart ==> v in job.evaluated)
  }

  lemma StartedKeeps(plan: Plan, job: Job, start: nat)
    requires start <= plan.size
    requires forall g :: 0 <= g < |job.batches| ==> Closed(job.batches[g])
    requires forall v :: 0 <= v < start ==> v in job.evaluated
    ensures Inv(plan, Started(plan, job, start))
  {
    NoneSettled(Fresh(plan, start).phases);
  }

  /** The current batch may be replaced by anything that keeps its place and its count. */
  lemma ReplaceKeeps(plan: Plan, job: Job, t: Job, b: Batch)
    requires Inv(plan, job)
    requires t == job.(batches := job.batches[|job.batches| - 1 := b], scannedInBatch := t.scannedInBatch,
                       evaluated := t.evaluated)
    requires b == Current(job).(phases := b.phases) && |b.phases| == job.planned && BatchOk(b, job.canceled)
    requires t.scannedInBatch == Count(b.phases) && job.evaluated <= t.evaluated && Recorded(b, t.evaluated)
    ensures Inv(plan, t)
  {
    assert Current(t) == b;
    assert forall g :: 0 <= g < |t.batches| - 1 ==> t.batches[g] == job.batches[g];
  }

  /** One target of the current batch moves on without being evaluated. */
  lemma PhaseKeeps(plan: Plan, job: Job, g: nat, i: nat, ph: Phase)
    requires Inv(plan, job) && g == |job.batches| - 1 && i < |job.batches[g].phases|
    requires Settled(job.batches[g].phases[i]) == 0 && Settled(ph) == 0
    requires PhaseOk(job.batches[g].probing, job.batches[g].finished, job.canceled, ph)
    ensures Inv(plan, SetPhase(job, g, i, ph))
  {
    var b := job.batches[g];
    CountUpdate(b.phases, i, ph);
    ReplaceKeeps(plan, job, SetPhase(job, g, i, ph), b.(phases := b.phases[i := ph]));
  }

  lemma CountedKeeps(plan: Plan, job: Job, g: nat, i: nat, ph: Phase)
    requires Inv(plan, job) && g == |job.batches| - 1 && i < |job.batches[g].phases| && !job.batches[g].finished
    requires Settled(job.batches[g].phases[i]) == 0 && Settled(ph) == 1
    requires (ph == Probed) == job.batches[g].probing && !job.canceled
    ensures Inv(plan, Evaluated(job, g, i, ph))
  {
    var b := job.batches[g].(phases := job.batches[g].phases[i := ph]);
    CountUpdate(job.batches[g].phases, i, ph);
    MarkedOk(job.batches[g], i, ph, job.evaluated);
    ReplaceKeeps(plan, job, Evaluated(job, g, i, ph), b);
  }

  lemma EvaluatedKeeps(plan: Plan, job: Job, g: nat, i: nat, ph: Phase)
    requires Inv(plan, job) && g == |job.batches| - 1 && i < |job.batches[g].phases| && !job.batches[g].finished
    requires Settled(job.batches[g].phases[i]) == 0 && Settled(ph) == 1
    requires (ph == Probed) == job.batches[g].probing
    ensures Inv(plan, Evaluated(job, g, i, ph))
  {
    if job.canceled {
      PhaseKeeps(plan, job, g, i, Abandoned);
    } else {
      CountedKeeps(plan, job, g, i, ph);
    }
  }

  lemma MarkedOk(b: Batch, i: nat, ph: Phase, evaluated: set<nat>)
    requires BatchOk(b, false) && Recorded(b, evaluated) && i < |b.phases| && PhaseOk(b.probing, b.finished, false, ph)
    ensures var b' := b.(phases := b.phases[i := ph]);
            BatchOk(b', false) && Recorded(b', evaluated + {b.start + i})
  {
  }

  lemma AbandonKeeps(plan: Plan, job: Job, g: nat, ph: Phase)
    requires Inv(plan, job) && g == |job.batches| - 1 && job.canceled && Settled(ph) == 0
    ensures Inv(plan, SetBatch(job, g, job.batches[g].(phases := Abandon(job.batches[g].phases, ph))))
  {
    var b := job.batches[g].(phases := Abandon(job.batches[g].phases, ph));
    CountAbandon(job.batches[g].phases, ph);
    assert BatchOk(b, true);
    ReplaceKeeps(plan, job, SetBatch(job, g, b), b);
  }

  lemma FinishKeeps(plan: Plan, job: Job, g: nat)
    requires Inv(plan, job) && g == |job.batches| - 1 && Enabled(plan, job, Finish(g))
    ensures Inv(plan, Step(plan, job, Finish(g)))
  {
  }

  /** The batch an action belongs to; control actions belong to the current one. */
  predicate OfCurrent(job: Job, a: Action) {
    match a
    case Cancel => true
    case Continue(_) => job.batches != [] && Current(job).finished
    case _ => a.g + 1 == |job.batches|
  }

  lemma DialKeeps(plan: Plan, job: Job, a: Action)
    requires Inv(plan, job) && Enabled(plan, job, a) && OfCurrent(job, a) && (a.Dial? || a.DialEnd?)
    ensures Inv(plan, Step(plan, job, a))
  {
    match a
    case Dial(g, i) => PhaseKeeps(plan, job, g, i, if plan.broadcast(job.batches[g].start + i) then Kept else Dialing);
    case DialEnd(g, i, result) =>
      if result == Reached || (result == LocalFault && !job.canceled) {
        PhaseKeeps(plan, job, g, i, Kept);
      } else {
        EvaluatedKeeps(plan, job, g, i, Dead);
      }
  }

  lemma ProbeEndKeeps(plan: Plan, job: Job, g: nat, i: nat, found: seq<Device>)
    requires Inv(plan, job) && Enabled(plan, job, ProbeEnd(g, i, found)) && g + 1 == |job.batches|
    ensures Inv(plan, Step(plan, job, ProbeEnd(g, i, found)))
  {
    EvaluatedKeeps(plan, job, g, i, Probed);
  }

  lemma StageKeeps(plan: Plan, job: Job, a: Action)
    requires Inv(plan, job) && Enabled(plan, job, a) && OfCurrent(job, a)
    requires a.BreakDial? || a.BreakProbe? || a.StageTwo?
    ensures Inv(plan, Step(plan, job, a))
  {
    match a
    case BreakDial(g) => AbandonKeeps(plan, job, g, Waiting);
    case BreakProbe(g) => AbandonKeeps(plan, job, g, Kept);
    case StageTwo(g) =>
  }

  /** A batch that ended without a cancellation, or with all its targets counted, has evaluated them all. */
  lemma WholeBatchEvaluated(plan: Plan, job: Job)
    requires Inv(plan, job) && job.state != Running && !CanceledMidBatch(job) && Current(job).finished
    ensures job.scannedInBatch == job.planned
    ensures forall v :: 0 <= v < job.offset ==> v in job.evaluated
  {
    var b := Current(job);
    if job.state == Done {
      forall i | 0 <= i < |b.phases|
        ensures Settled(b.phases[i]) == 1
      {
        assert b.phases[i] != Abandoned;
      }
      CountSettled(b.phases);
    }
    AllSettled(b.phases);
    forall v | job.batchStart <= v < job.offset
      ensures v in job.evaluated
    {
      assert Settled(b.phases[v - job.batchStart]) == 1;
    }
  }

  lemma ContinueKeeps(plan: Plan, job: Job, awaited: nat)
    requires Inv(plan, job) && Enabled(plan, job, Continue(awaited)) && Current(job).finished
    ensures Inv(plan, Step(plan, job, Continue(awaited)))
  {
    if Remaining(job) > 0 {
      if CanceledMidBatch(job) {
        StartedKeeps(plan, job, job.batchStart);
      } else {
        WholeBatchEvaluated(plan, job);
        StartedKeeps(plan, job, job.offset);
      }
    }
  }

  lemma StepKeeps(plan: Plan, job: Job, a: Action)
    requires Inv(plan, job) && Enabled(plan, job, a) && OfCurrent(job, a)
    ensures Inv(plan, Step(plan, job, a))
  {
    match a
    case Dial(_, _) => DialKeeps(plan, job, a);
    case DialEnd(_, _, _) => DialKeeps(plan, job, a);
    case Probe(g, i) => PhaseKeeps(plan, job, g, i, Probing);
    case ProbeEnd(g, i, found) => ProbeEndKeeps(plan, job, g, i, found);
    case Finish(g) => FinishKeeps(plan, job, g);
    case Cancel =>
    case Continue(awaited) => ContinueKeeps(plan, job, awaited);
    case _ => StageKeeps(plan, job, a);
  }

  /** Nothing of an earlier batch can still happen. */
  lemma EarlierIsOver(plan: Plan, job: Job, a: Action)
    requires Inv(plan, job) && !a.Cancel? && !a.Continue? && a.g + 1 < |job.batches|
    ensures !Enabled(plan, job, a)
  {
    assert Closed(job.batches[a.g]);
  }

  // ----- Runs -----

  /**
   With `current`, a Continue takes effect only if the job's current batch has
   ended.  The source checks that for the batch it waited for, which another
   Continue may have replaced meanwhile.
   */
  predicate Taken(plan: Plan, job: Job, a: Action, current: bool) {
    Enabled(plan, job, a) && (current && a.Continue? ==> job.batches != [] && Current(job).finished)
  }

  function Run(plan: Plan, job: Job, actions: seq<Action>, current: bool): Job
    decreases |actions|
  {
    if actions == [] then job
    else Run(plan, if Taken(plan, job, actions[0], current) then Step(plan, job, actions[0]) else job,
             actions[1..], current)
  }

  lemma {:induction false} RunKeeps(plan: Plan, job: Job, actions: seq<Action>)
    requires Inv(plan, job)
    ensures Inv(plan, Run(plan, job, actions, true))
    decreases |actions|
  {
    if actions != [] {
      var a := actions[0];
      if Taken(plan, job, a, true) {
        if !OfCurrent(job, a) {
          EarlierIsOver(plan, job, a);
        } else {
          StepKeeps(plan, job, a);
        }
        RunKeeps(plan, Step(plan, job, a), actions[1..]);
      } else {
        RunKeeps(plan, job, actions[1..]);
      }
    }
  }

  /**
   Through any cancellations and continuations, every target before the current
   batch has been evaluated; a done job has evaluated its whole batch, and one
   with nothing remaining everything.
   */
  lemma DoneMeansEvaluated(plan: Plan, actions: seq<Action>)
    ensures var job := Run(plan, Submitted(plan), actions, true);
            && (forall v :: 0 <= v < job.batchStart ==> v in job.evaluated)
            && (job.state == Done ==> forall v :: 0 <= v < job.offset ==> v in job.evaluated)
            && (job.state == Done && Remaining(job) == 0 ==> forall v :: 0 <= v < plan.size ==> v in job.evaluated)
  {
    StartedKeeps(plan, Job(0, 0, 0, 0, false, Running, 0, [], {}, false, [], {}), 0);
    RunKeeps(plan, Submitted(plan), actions);
    var job := Run(plan, Submitted(plan), actions, true);
    if job.state == Done {
      WholeBatchEvaluated(plan, job);
    }
  }

  /** In every terminal snapshot what was scanned and what remains add up to what was requested. */
  lemma SnapshotAddsUp(plan: Plan, actions: seq<Action>)
    ensures var job := Run(plan, Submitted(plan), actions, true);
            job.state != Running ==> ScannedTotal(job) + Remaining(job) == job.requested == plan.size
  {
    StartedKeeps(plan, Job(0, 0, 0, 0, false, Running, 0, [], {}, false, [], {}), 0);
    RunKeeps(plan, Submitted(plan), actions);
    var job := Run(plan, Submitted(plan), actions, true);
    if job.state == Done {
      WholeBatchEvaluated(plan, job);
    }
  }

  predicate NoContinue(actions: seq<Action>) {
    forall k :: 0 <= k < |actions| ==> !actions[k].Continue?
  }

  /** From a terminal job to t nothing changes that a snapshot shows. */
  ghost predicate Stands(job: Job, t: Job) {
    && t.state == job.state && t.canceled == job.canceled && t.offset == job.offset
    && t.requested == job.requested && t.planned == job.planned
    && (job.canceled ==> t.scannedInBatch == job.scannedInBatch && t.evaluated == job.evaluated
                         && t.devices == job.devices && t.seen == job.seen)
  }

  lemma StepStands(plan: Plan, job: Job, a: Action)
    requires job.state != Running && Enabled(plan, job, a) && !a.Continue?
    ensures Stands(job, Step(plan, job, a))
  {
  }

  /**
   Until the next continuation a terminal state stands, whatever the workers still
   do; and after a cancellation nothing more is counted, evaluated or found.
   */
  lemma {:induction false} TerminalStands(plan: Plan, job: Job, actions: seq<Action>, current: bool)
    requires job.state != Running && NoContinue(actions)
    ensures Stands(job, Run(plan, job, actions, current))
    decreases |actions|
  {
    if actions != [] {
      var a := actions[0];
      if Taken(plan, job, a, current) {
        StepStands(plan, job, a);
      }
      TerminalStands(plan, if Taken(plan, job, a, current) then Step(plan, job, a) else job, actions[1..], current);
    }
  }

  /** Continue always finds targets when it says some remain. */
  lemma ContinueHasTargets(plan: Plan, job: Job)
    requires Inv(plan, job) && plan.limit > 0 && job.state != Running && Current(job).finished && Remaining(job) > 0
    ensures Step(plan, job, Continue(|job.batches| - 1)).planned > 0
    ensures Step(plan, job, Continue(|job.batches| - 1)).state == Running
  {
  }

  // ----- No device twice -----

  predicate NoNul(s: string) {
    NUL !in s
  }

  lemma ItoaHasNoNul(n: int)
    ensures NoNul(Itoa(n))
  {
  }

  /** Whatever the host text, two devices share a key only if host, port and unit agree. */
  lemma KeyIsExact(d: Device, e: Device)
    ensures KeyOf(d) == KeyOf(e) <==> d.host == e.host && d.port == e.port && d.unit == e.unit
  {
    if KeyOf(d) == KeyOf(e) {
      var p, q := d.host + [NUL] + Itoa(d.port), e.host + [NUL] + Itoa(e.port);
      ItoaHasNoNul(d.unit);
      ItoaHasNoNul(e.unit);
      LastSeparatorSplits(NUL, p, q, Itoa(d.unit), Itoa(e.unit));
      ItoaHasNoNul(d.port);
      ItoaHasNoNul(e.port);
      LastSeparatorSplits(NUL, d.host, e.host, Itoa(d.port), Itoa(e.port));
      ItoaInjective(d.port, e.port);
      ItoaInjective(d.unit, e.unit);
    }
  }

  ghost predicate NoDeviceTwice(devices: seq<Device>, seen: set<string>) {
    && (forall k :: 0 <= k < |devices| ==> KeyOf(devices[k]) in seen)
    && (forall j, k :: 0 <= j < k < |devices| ==> KeyOf(devices[j]) != KeyOf(devices[k]))
  }

  lemma AcceptOneKeeps(devices: seq<Device>, seen: set<string>, d: Device)
    requires NoDeviceTwice(devices, seen) && KeyOf(d) !in seen
    ensures NoDeviceTwice(devices + [d], seen + {KeyOf(d)})
  {
  }

  lemma {:induction false} AcceptKeeps(devices: seq<Device>, seen: set<string>, found: seq<Device>)
    requires NoDeviceTwice(devices, seen)
    ensures var (ds, keys) := AcceptAll(devices, seen, found); NoDeviceTwice(ds, keys) && devices <= ds && seen <= keys
  {
    if found != [] {
      var front, d := found[..|found| - 1], found[|found| - 1];
      AcceptKeeps(devices, seen, front);
      var (ds, keys) := AcceptAll(devices, seen, front);
      if KeyOf(d) !in keys {
        AcceptOneKeeps(ds, keys, d);
      }
    }
  }

  lemma DevicesKeep(plan: Plan, job: Job, a: Action)
    requires NoDeviceTwice(job.devices, job.seen) && Enabled(plan, job, a)
    ensures var t := Step(plan, job, a); NoDeviceTwice(t.devices, t.seen) && job.devices <= t.devices
  {
    if a.ProbeEnd? {
      AcceptKeeps(job.devices, job.seen, a.found);
      assert Step(plan, job, a) == Answered(job, a.g, a.i, a.found);
    }
  }

  /** The result list only grows, across batches too, and never lists a host, port and unit twice. */
  lemma {:induction false} NoDuplicateDevices(plan: Plan, job: Job, actions: seq<Action>, current: bool)
    requires NoDeviceTwice(job.devices, job.seen)
    ensures var t := Run(plan, job, actions, current);
            && NoDeviceTwice(t.devices, t.seen) && job.devices <= t.devices
            && forall j, k :: 0 <= j < k < |t.devices| ==>
                 var d, e := t.devices[j], t.devices[k]; d.host != e.host || d.port != e.port || d.unit != e.unit
    decreases |actions|
  {
    if actions == [] {
      forall j, k | 0 <= j < k < |job.devices|
        ensures var d, e := job.devices[j], job.devices[k]; d.host != e.host || d.port != e.port || d.unit != e.unit
      {
        KeyIsExact(job.devices[j], job.devices[k]);
      }
    } else {
      var a := actions[0];
      var t := if Taken(plan, job, a, current) then Step(plan, job, a) else job;
      if Taken(plan, job, a, current) {
        DevicesKeep(plan, job, a);
      }
      NoDuplicateDevices(plan, t, actions[1..], current);
    }
  }

  // ----- Where it can go wrong -----

  lemma {:induction false} RunExtends(plan: Plan, job: Job, actions: seq<Action>, a: Action)
    requires Taken(plan, Run(plan, job, actions, false), a, false)
    ensures Run(plan, job, actions + [a], false) == Step(plan, Run(plan, job, actions, false), a)
    decreases |actions|
  {
    if actions == [] {
      assert [a][1..] == [] && actions + [a] == [a];
    } else {
      assert (actions + [a])[1..] == actions[1..] + [a];
      RunExtends(plan, if Taken(plan, job, actions[0], false) then Step(plan, job, actions[0]) else job,
                 actions[1..], a);
    }
  }

  lemma Advance(plan: Plan, init: Job, actions: seq<Action>, job: Job, a: Action)
    returns (more: seq<Action>, t: Job)
    requires job == Run(plan, init, actions, false) && Enabled(plan, job, a)
    ensures t == Step(plan, job, a) && t == Run(plan, init, more, false)
  {
    more, t := actions + [a], Step(plan, job, a);
    RunExtends(plan, init, actions, a);
  }

  /** What becomes of a batch that is cancelled before any of its targets was looked at. */
  function LeftAlone(b: Batch): Batch {
    Batch(b.start, seq(|b.phases|, i => Abandoned), true, false)
  }

  lemma NothingDialled(plan: Plan, init: Job, actions: seq<Action>, job: Job, g: nat, b: Batch)
    returns (more: seq<Action>, t: Job)
    requires job == Run(plan, init, actions, false) && g < |job.batches| && job.batches[g] == b && job.canceled
    requires !b.probing && !b.finished && forall i :: 0 <= i < |b.phases| ==> b.phases[i] == Waiting
    ensures t == Run(plan, init, more, false)
    ensures t == SetBatch(job, g, LeftAlone(b))
  {
    more, t := Advance(plan, init, actions, job, BreakDial(g));
    assert t.batches[g].phases == LeftAlone(b).phases;
    more, t := Advance(plan, init, more, t, StageTwo(g));
    assert t.batches == job.batches[g := LeftAlone(b)];
  }

  lemma NothingProbed(plan: Plan, init: Job, actions: seq<Action>, job: Job, g: nat, b: Batch)
    returns (more: seq<Action>, t: Job)
    requires job == Run(plan, init, actions, false) && g < |job.batches| && job.batches[g] == b && job.canceled
    requires b.probing && !b.finished && forall i :: 0 <= i < |b.phases| ==> b.phases[i] == Kept
    ensures t == Run(plan, init, more, false)
    ensures t == SetBatch(job, g, LeftAlone(b))
  {
    more, t := Advance(plan, init, actions, job, BreakProbe(g));
    assert t.batches[g].phases == LeftAlone(b).phases;
    assert t.batches == job.batches[g := LeftAlone(b)];
  }

  /** A batch is cancelled, and its workers leave before any target was looked at. */
  lemma CancelledAndLeft(plan: Plan, init: Job, actions: seq<Action>, job: Job, g: nat)
    returns (more: seq<Action>, t: Job)
    requires job == Run(plan, init, actions, false) && job.state == Running
    requires g < |job.batches| && job.batches[g] == Fresh(plan, 0)
    ensures t == Run(plan, init, more, false)
    ensures t == SetBatch(job.(state := Canceled, canceled := true), g, LeftAlone(Fresh(plan, 0)))
  {
    more, t := Advance(plan, init, actions, job, Cancel);
    if plan.prefilter {
      more, t := NothingDialled(plan, init, more, t, g, Fresh(plan, 0));
    } else {
      more, t := NothingProbed(plan, init, more, t, g, Fresh(plan, 0));
    }
  }

  /** The first batch has been cancelled and left, and a continuation has restarted it. */
  lemma RestartedOnce(plan: Plan) returns (actions: seq<Action>, t: Job)
    requires plan.size > 0 && plan.limit > 0
    ensures t == Run(plan, Submitted(plan), actions, false)
    ensures t == Submitted(plan).(batches := [LeftAlone(Fresh(plan, 0)).(finished := true), Fresh(plan, 0)])
  {
    var init := Submitted(plan);
    actions, t := CancelledAndLeft(plan, init, [], init, 0);
    actions, t := Advance(plan, init, actions, t, Finish(0));
    assert t.batches == [LeftAlone(Fresh(plan, 0)).(finished := true)];
    actions, t := Advance(plan, init, actions, t, Continue(0));
  }

  /**
   Two continuations wait for the same cancelled batch; the first restarts it and is
   cancelled in turn; the second then starts a third batch beside the workers of the
   second, whose end is taken for its own: the job is done with its batch, though no
   target was ever evaluated.  This can happen to every scan that has targets.
   */
  lemma StaleContinueReportsDone(plan: Plan) returns (actions: seq<Action>)
    requires plan.size > 0 && plan.limit > 0
    ensures var job := Run(plan, Submitted(plan), actions, false);
            job.state == Done && job.evaluated == {} && job.offset > 0
            && (Remaining(job) == 0 <==> plan.size <= plan.limit)
  {
    var init := Submitted(plan);
    var job;
    actions, job := RestartedOnce(plan);
    actions, job := CancelledAndLeft(plan, init, actions, job, 1);
    actions, job := Advance(plan, init, actions, job, Continue(0));
    actions, job := Advance(plan, init, actions, job, Finish(1));
  }

  ghost predicate BatchEvaluated(job: Job) {
    job.state == Done ==> forall v :: 0 <= v < job.offset ==> v in job.evaluated
  }

  /** Whatever happens to a scan of this plan, done means that its batch and all before it were evaluated. */
  ghost predicate DoneIsEvaluated(plan: Plan, current: bool) {
    forall actions :: BatchEvaluated(Run(plan, Submitted(plan), actions, current))
  }

  lemma {:induction false} NothingPlanned(plan: Plan, job: Job, actions: seq<Action>, current: bool)
    requires (plan.size == 0 || plan.limit == 0) && job.offset == job.batchStart == 0
    ensures Run(plan, job, actions, current).offset == 0
    decreases |actions|
  {
    if actions != [] {
      NothingPlanned(plan, if Taken(plan, job, actions[0], current) then Step(plan, job, actions[0]) else job,
                     actions[1..], current);
    }
  }

  /** Done can be relied on exactly when continuations see the end of the current batch, or there is nothing to scan. */
  lemma DoneIsRightExactly(plan: Plan, current: bool)
    ensures DoneIsEvaluated(plan, current) <==> current || plan.size == 0 || plan.limit == 0
  {
    if current {
      forall actions
        ensures BatchEvaluated(Run(plan, Submitted(plan), actions, current))
      {
        DoneMeansEvaluated(plan, actions);
      }
    } else if plan.size == 0 || plan.limit == 0 {
      forall actions
        ensures BatchEvaluated(Run(plan, Submitted(plan), actions, current))
      {
        NothingPlanned(plan, Submitted(plan), actions, current);
      }
    } else {
      var actions := StaleContinueReportsDone(plan);
      var job := Run(plan, Submitted(plan), actions, false);
      assert 0 !in job.evaluated;
      assert !BatchEvaluated(job);
    }
  }
}
