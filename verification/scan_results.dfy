/**
 What a scan reports (devicescan/engine.go, job.go, prefilter.go): everything its
 probes find is listed, once and in order, and no target is left out that did not
 itself refuse the dial.
 */
module ScanResults {

  import opened ScanJob

  // ----- What is found is listed -----

  function KeysOf(devices: seq<Device>): (keys: seq<string>)
    ensures |keys| == |devices| && forall i :: 0 <= i < |devices| ==> keys[i] == KeyOf(devices[i])
  {
    seq(|devices|, i requires 0 <= i < |devices| => KeyOf(devices[i]))
  }

  /** Where a key first occurs. */
  function FirstAt(keys: seq<string>, key: string): (n: nat)
    ensures n <= |keys| && (n < |keys| ==> keys[n] == key)
    ensures forall i :: 0 <= i < n ==> keys[i] != key
  {
    if keys == [] then 0
    else
      var n := FirstAt(keys[..|keys| - 1], key);
      if n < |keys| - 1 || keys[|keys| - 1] == key then n else |keys|
  }

  /** Every key counted as seen is that of a listed device. */
  ghost predicate SeenIsListed(devices: seq<Device>, seen: set<string>) {
    forall key :: key in seen ==> key in KeysOf(devices)
  }

  /** What was added are first reports of keys not seen before, in the order of the report. */
  ghost predicate AddedFrom(devices: seq<Device>, seen: set<string>, found: seq<Device>, after: seq<Device>) {
    && devices <= after
    && (forall k :: |devices| <= k < |after| ==> FirstReport(found, after[k]) && KeysOf(after)[k] !in seen)
    && (forall k, l :: |devices| <= k < l < |after| ==>
          FirstAt(KeysOf(found), KeysOf(after)[k]) < FirstAt(KeysOf(found), KeysOf(after)[l]))
  }

  /** d is in the report, the first under its key. */
  ghost predicate FirstReport(found: seq<Device>, d: Device) {
    var n := FirstAt(KeysOf(found), KeyOf(d)); n < |found| && found[n] == d
  }

  lemma KeysSnoc(ds: seq<Device>, d: Device)
    ensures KeysOf(ds + [d]) == KeysOf(ds) + [KeyOf(d)]
  {
  }

  lemma FirstAtSnoc(keys: seq<string>, more: string, key: string)
    ensures FirstAt(keys + [more], key)
            == if FirstAt(keys, key) < |keys| then FirstAt(keys, key)
               else if more == key then |keys| else |keys| + 1
  {
    assert (keys + [more])[..|keys|] == keys;
  }

  /** A longer report changes nothing about what its beginning has added. */
  lemma AddedFromLonger(devices: seq<Device>, seen: set<string>, front: seq<Device>, d: Device, after: seq<Device>)
    requires AddedFrom(devices, seen, front, after)
    ensures AddedFrom(devices, seen, front + [d], after)
  {
    KeysSnoc(front, d);
    forall k | |devices| <= k < |after|
      ensures FirstReport(front + [d], after[k])
      ensures FirstAt(KeysOf(front + [d]), KeysOf(after)[k]) == FirstAt(KeysOf(front), KeysOf(after)[k])
    {
      assert FirstReport(front, after[k]);
      FirstAtSnoc(KeysOf(front), KeyOf(d), KeyOf(after[k]));
    }
  }

  lemma AddedOneMore(devices: seq<Device>, seen: set<string>, front: seq<Device>, d: Device, after: seq<Device>)
    requires AddedFrom(devices, seen, front, after)
    requires KeyOf(d) !in seen && FirstAt(KeysOf(front), KeyOf(d)) == |front|
    ensures AddedFrom(devices, seen, front + [d], after + [d])
  {
    AddedFromLonger(devices, seen, front, d, after);
    KeysSnoc(front, d);
    KeysSnoc(after, d);
    FirstAtSnoc(KeysOf(front), KeyOf(d), KeyOf(d));
    forall k | |devices| <= k < |after|
      ensures FirstAt(KeysOf(front + [d]), KeysOf(after)[k]) < |front|
    {
      assert FirstReport(front, after[k]);
      FirstAtSnoc(KeysOf(front), KeyOf(d), KeyOf(after[k]));
    }
  }

  /** After a report exactly the keys seen before and those of the report are seen, and all of them are listed. */
  lemma {:induction false} AcceptedKeys(devices: seq<Device>, seen: set<string>, found: seq<Device>)
    requires SeenIsListed(devices, seen)
    ensures var (ds, keys) := AcceptAll(devices, seen, found);
            SeenIsListed(ds, keys) && forall key :: key in keys <==> key in seen || key in KeysOf(found)
  {
    if found != [] {
      var front, d := found[..|found| - 1], found[|found| - 1];
      assert found == front + [d];
      AcceptedKeys(devices, seen, front);
      var (ds, keys) := AcceptAll(devices, seen, front);
      KeysSnoc(front, d);
      KeysSnoc(ds, d);
    }
  }

  lemma FirstAtOfMember(keys: seq<string>, key: string)
    ensures key in keys <==> FirstAt(keys, key) < |keys|
  {
  }

  /** And what was added are the first reports of the new ones, in order. */
  lemma {:induction false} AcceptedDevices(devices: seq<Device>, seen: set<string>, found: seq<Device>)
    requires SeenIsListed(devices, seen)
    ensures AddedFrom(devices, seen, found, AcceptAll(devices, seen, found).0)
  {
    if found != [] {
      var front, d := found[..|found| - 1], found[|found| - 1];
      assert found == front + [d];
      AcceptedDevices(devices, seen, front);
      AcceptedKeys(devices, seen, front);
      var (ds, keys) := AcceptAll(devices, seen, front);
      if KeyOf(d) in keys {
        AddedFromLonger(devices, seen, front, d, ds);
      } else {
        FirstAtOfMember(KeysOf(front), KeyOf(d));
        AddedOneMore(devices, seen, front, d, ds);
      }
    }
  }

  /**
   The end of a probe that was not cancelled: everything it found is listed from now
   on, each key once, by its first report, in the order of the reports, and nothing else.
   */
  lemma ProbeListsWhatItFound(plan: Plan, job: Job, g: nat, i: nat, found: seq<Device>)
    requires Enabled(plan, job, ProbeEnd(g, i, found)) && !job.canceled && SeenIsListed(job.devices, job.seen)
    ensures var t := Step(plan, job, ProbeEnd(g, i, found));
            && AddedFrom(job.devices, job.seen, found, t.devices)
            && forall k :: 0 <= k < |found| ==> KeyOf(found[k]) in KeysOf(t.devices)
  {
    AcceptedDevices(job.devices, job.seen, found);
    AcceptedKeys(job.devices, job.seen, found);
    forall k | 0 <= k < |found|
      ensures KeyOf(found[k]) in AcceptAll(job.devices, job.seen, found).1
    {
      assert KeysOf(found)[k] in KeysOf(found);
    }
  }

  /** In every run what counts as seen is listed: nothing found is ever passed over without being in the result. */
  lemma {:induction false} SeenStaysListed(plan: Plan, job: Job, actions: seq<Action>, current: bool)
    requires SeenIsListed(job.devices, job.seen)
    ensures var t := Run(plan, job, actions, current); SeenIsListed(t.devices, t.seen)
    decreases |actions|
  {
    if actions != [] {
      var a := actions[0];
      var t := if Taken(plan, job, a, current) then Step(plan, job, a) else job;
      if Taken(plan, job, a, current) && a.ProbeEnd? {
        AcceptedKeys(job.devices, job.seen, a.found);
        assert t == Answered(job, a.g, a.i, a.found);
      }
      SeenStaysListed(plan, t, actions[1..], current);
    }
  }

  // ----- What the first stage decides -----

  /** A target is judged dead exactly when its dial was refused by the target and the job goes on; else it goes on to the probe. */
  lemma DialDecides(plan: Plan, job: Job, g: nat, i: nat, result: DialResult)
    requires Enabled(plan, job, DialEnd(g, i, result))
    ensures var t := Step(plan, job, DialEnd(g, i, result)); var ph := t.batches[g].phases[i];
            && (ph == Dead <==> result == Unreachable && !job.canceled)
            && (ph == Kept <==> result == Reached || (result == LocalFault && !job.canceled))
            && (ph == Abandoned <==> result != Reached && job.canceled)
            && t.devices == job.devices && t.seen == job.seen
            && t.scannedInBatch == job.scannedInBatch + if ph == Dead then 1 else 0
  {
  }

  predicate NothingUnreachable(actions: seq<Action>) {
    forall k :: 0 <= k < |actions| && actions[k].DialEnd? ==> actions[k].result != Unreachable
  }

  ghost predicate NoneDead(job: Job) {
    forall g :: 0 <= g < |job.batches| ==> None(job.batches[g].phases, Dead)
  }

  lemma BatchKillsNone(job: Job, t: Job, g: nat)
    requires NoneDead(job) && g < |job.batches| && |t.batches| == |job.batches|
    requires t.batches == job.batches[g := t.batches[g]] && None(t.batches[g].phases, Dead)
    ensures NoneDead(t)
  {
  }

  lemma StartKillsNone(plan: Plan, job: Job)
    requires NoneDead(job) && job.batchStart <= plan.size && job.offset <= plan.size
    ensures NoneDead(Continued(plan, job))
  {
  }

  lemma StepKillsNone(plan: Plan, job: Job, a: Action)
    requires NoneDead(job) && Enabled(plan, job, a) && (a.DialEnd? ==> a.result != Unreachable)
    ensures NoneDead(Step(plan, job, a))
  {
    if a.Continue? {
      StartKillsNone(plan, job);
    } else if !a.Cancel? {
      assert None(job.batches[a.g].phases, Dead);
      BatchKillsNone(job, Step(plan, job, a), a.g);
    }
  }

  lemma {:induction false} RunKillsNone(plan: Plan, job: Job, actions: seq<Action>, current: bool)
    requires NoneDead(job) && NothingUnreachable(actions)
    ensures NoneDead(Run(plan, job, actions, current))
    decreases |actions|
  {
    if actions != [] {
      var a := actions[0];
      if Taken(plan, job, a, current) {
        StepKillsNone(plan, job, a);
      }
      RunKillsNone(plan, if Taken(plan, job, a, current) then Step(plan, job, a) else job, actions[1..], current);
    }
  }

  /**
   A scan in which no dial is refused by its target leaves nobody out: when it is
   done, every target of its batch has been probed by the plugin.
   */
  lemma NobodyIsLeftOut(plan: Plan, actions: seq<Action>)
    requires NothingUnreachable(actions)
    ensures var job := Run(plan, Submitted(plan), actions, true);
            job.state == Done ==>
              job.batches != [] && forall i :: 0 <= i < |Current(job).phases| ==> Current(job).phases[i] == Probed
  {
    StartedKeeps(plan, Job(0, 0, 0, 0, false, Running, 0, [], {}, false, [], {}), 0);
    RunKeeps(plan, Submitted(plan), actions);
    RunKillsNone(plan, Submitted(plan), actions, true);
    var job := Run(plan, Submitted(plan), actions, true);
    if job.state == Done {
      var b := Current(job);
      forall i | 0 <= i < |b.phases|
        ensures b.phases[i] == Probed
      {
        assert PhaseOk(b.probing, b.finished, job.canceled, b.phases[i]) && b.phases[i] != Dead;
      }
    }
  }

  /** Broadcast targets are never dialled, so never judged dead. */
  ghost predicate Spared(plan: Plan, b: Batch) {
    forall i :: 0 <= i < |b.phases| && plan.broadcast(b.start + i) ==> b.phases[i] != Dialing && b.phases[i] != Dead
  }

  ghost predicate AllSpared(plan: Plan, job: Job) {
    forall g :: 0 <= g < |job.batches| ==> Spared(plan, job.batches[g])
  }

  /** How a target comes to be dialled or dead. */
  ghost predicate PhaseMoved(plan: Plan, at: nat, p: Phase, q: Phase) {
    && (q == Dialing ==> p == Dialing || (p == Waiting && !plan.broadcast(at)))
    && (q == Dead ==> p == Dead || p == Dialing)
  }

  ghost predicate BatchMoved(plan: Plan, b: Batch, c: Batch) {
    && c.start == b.start && |c.phases| == |b.phases|
    && forall i :: 0 <= i < |b.phases| ==> PhaseMoved(plan, b.start + i, b.phases[i], c.phases[i])
  }

  lemma OnePhaseMoved(plan: Plan, b: Batch, i: nat, ph: Phase)
    requires i < |b.phases| && PhaseMoved(plan, b.start + i, b.phases[i], ph)
    ensures BatchMoved(plan, b, b.(phases := b.phases[i := ph]))
  {
  }

  lemma AbandonedMoved(plan: Plan, b: Batch, ph: Phase)
    ensures BatchMoved(plan, b, b.(phases := Abandon(b.phases, ph)))
  {
  }

  lemma BatchMoves(plan: Plan, job: Job, a: Action)
    requires Enabled(plan, job, a) && !a.Cancel? && !a.Continue?
    ensures var t := Step(plan, job, a);
            && |t.batches| == |job.batches| && t.batches == job.batches[a.g := t.batches[a.g]]
            && BatchMoved(plan, job.batches[a.g], t.batches[a.g])
  {
    var b, t := job.batches[a.g], Step(plan, job, a);
    if a.Dial? || a.DialEnd? || a.Probe? || a.ProbeEnd? {
      assert t.batches[a.g] == b.(phases := b.phases[a.i := t.batches[a.g].phases[a.i]]);
      OnePhaseMoved(plan, b, a.i, t.batches[a.g].phases[a.i]);
    } else if a.BreakDial? {
      AbandonedMoved(plan, b, Waiting);
    } else if a.BreakProbe? {
      AbandonedMoved(plan, b, Kept);
    }
  }

  lemma SparedAfter(plan: Plan, job: Job, t: Job, g: nat)
    requires AllSpared(plan, job) && g < |job.batches| == |t.batches|
    requires t.batches == job.batches[g := t.batches[g]] && BatchMoved(plan, job.batches[g], t.batches[g])
    ensures AllSpared(plan, t)
  {
    assert Spared(plan, job.batches[g]);
    assert Spared(plan, t.batches[g]);
  }

  lemma {:induction false} BroadcastsAreSpared(plan: Plan, job: Job, actions: seq<Action>, current: bool)
    requires AllSpared(plan, job)
    ensures AllSpared(plan, Run(plan, job, actions, current))
    decreases |actions|
  {
    if actions != [] {
      var a := actions[0];
      if Taken(plan, job, a, current) && !a.Cancel? && !a.Continue? {
        BatchMoves(plan, job, a);
        SparedAfter(plan, job, Step(plan, job, a), a.g);
      }
      BroadcastsAreSpared(plan, if Taken(plan, job, a, current) then Step(plan, job, a) else job, actions[1..], current);
    }
  }

  // ----- A scan that is left alone -----

  /** The first n targets of a batch have been probed, the others are waiting for it. */
  function ProbedUpTo(b: Batch, n: nat): Batch {
    b.(phases := seq(|b.phases|, i => if i < n then Probed else Kept))
  }

  lemma OneProbe(plan: Plan, init: Job, actions: seq<Action>, job: Job, b: Batch, n: nat) returns (more: seq<Action>, t: Job)
    requires job == Run(plan, init, actions, false) && !job.canceled && n < |b.phases|
    requires job.batches == [ProbedUpTo(b, n)] && b.probing && !b.finished
    ensures t == Run(plan, init, more, false)
    ensures t == job.(batches := [ProbedUpTo(b, n + 1)], scannedInBatch := job.scannedInBatch + 1,
                      evaluated := job.evaluated + {b.start + n})
  {
    more, t := Advance(plan, init, actions, job, Probe(0, n));
    assert t == job.(batches := [ProbedUpTo(b, n).(phases := ProbedUpTo(b, n).phases[n := Probing])]);
    assert ProbedUpTo(b, n).phases[n := Probing][n := Probed] == ProbedUpTo(b, n + 1).phases;
    more, t := Advance(plan, init, more, t, ProbeEnd(0, n, []));
    assert t.batches == [ProbedUpTo(b, n + 1)];
  }

  lemma {:induction false} AllProbes(plan: Plan, init: Job, actions: seq<Action>, job: Job, b: Batch, n: nat)
    returns (more: seq<Action>, t: Job)
    requires job == Run(plan, init, actions, false) && !job.canceled && n <= |b.phases|
    requires job.batches == [ProbedUpTo(b, n)] && b.probing && !b.finished
    ensures t == Run(plan, init, more, false)
    ensures t == job.(batches := [ProbedUpTo(b, |b.phases|)], scannedInBatch := job.scannedInBatch + |b.phases| - n,
                      evaluated := t.evaluated)
    decreases |b.phases| - n
  {
    more, t := actions, job;
    if n < |b.phases| {
      more, t := OneProbe(plan, init, actions, job, b, n);
      more, t := AllProbes(plan, init, more, t, b, n + 1);
    }
  }

  /** Undisturbed, a scan without a first stage probes its whole batch and is done. */
  lemma ScanCanFinish(plan: Plan) returns (actions: seq<Action>)
    requires !plan.prefilter
    ensures var job := Run(plan, Submitted(plan), actions, false);
            && job.state == Done && job.scannedInBatch == job.planned == |Fresh(plan, 0).phases|
            && Remaining(job) == plan.size - job.planned
  {
    var init, b := Submitted(plan), Fresh(plan, 0);
    assert init.batches == [ProbedUpTo(b, 0)] by {
      assert ProbedUpTo(b, 0).phases == b.phases;
    }
    var job;
    actions, job := AllProbes(plan, init, [], init, b, 0);
    actions, job := Advance(plan, init, actions, job, Finish(0));
  }
}
