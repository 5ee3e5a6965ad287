/**
 Planning, the end of a probe and Continue (devicescan/engine.go, job.go), as methods
 on the job's fields under the engine's mutex; each is one step of ScanJob.
 */
module ScanCalls {

  import opened Wrappers
  import opened ScanJob
  import opened Targets

  datatype ScanError = NoTargets | Busy

  /**
   A batch of a job is a page of the virtual target list: target i of the batch is
   element start + i of the list, and the next batch starts where the page ends.
   */
  lemma BatchIsPage(plan: Plan, list: seq<Target>, start: nat)
    requires |list| == plan.size && start <= plan.size && plan.limit > 0
    ensures var e, b := Expanded(list, plan.size, plan.limit, start), Fresh(plan, start);
            && |e.targets| == |b.phases| && e.nextOffset == start + |b.phases|
            && (e.truncated <==> e.nextOffset < plan.size)
            && forall i :: 0 <= i < |b.phases| ==> e.targets[i] == list[b.start + i]
  {
  }

  /** What starting a batch comes to, field by field. */
  lemma StartedFields(plan: Plan, job: Job, list: seq<Target>, start: nat, e: Expansion)
    requires |list| == plan.size && start <= plan.size && plan.limit > 0
    requires e == Expanded(list, plan.size, plan.limit, start)
    ensures Started(plan, job, start)
            == job.(requested := e.requested, planned := |e.targets|, offset := e.nextOffset, batchStart := start,
                    truncated := e.truncated, state := Running, scannedInBatch := 0, canceled := false,
                    batches := job.batches + [Fresh(plan, start)])
    ensures e.requested == plan.size && e.targets == Page(list, start, plan.limit)
    ensures e.nextOffset == start + |e.targets| <= plan.size && (start < plan.size ==> e.targets != [])
  {
    BatchIsPage(plan, list, start);
  }

  class ScanRecord {
    const subnets: seq<Subnet>
    const port: int
    const mode: TargetMode
    const limit: nat
    ghost const plan: Plan
    ghost const list: seq<Target>
    var targets: seq<Target>
    var requested: nat
    var planned: nat
    var offset: nat
    var batchStart: nat
    var truncated: bool
    var state: JobState
    var scannedInBatch: nat
    var devices: seq<Device>
    var seen: set<string>
    var canceled: bool
    ghost var batches: seq<Batch>
    ghost var evaluated: set<nat>

    ghost function Now(): Job
      reads this
    {
      Job(requested, planned, offset, batchStart, truncated, state, scannedInBatch, devices, seen, canceled,
          batches, evaluated)
    }

    /** What never changes: the plan is that of the subnets' virtual list. */
    ghost predicate Planned() {
      && AllValid(subnets) && list == VirtualList(subnets, port, mode)
      && plan.size == |list| == Requested(subnets, mode) && limit > 0 && limit == plan.limit
    }

    /** The batch is the page of the list that starts where the job says. */
    ghost predicate Valid()
      reads this
    {
      && Planned()
      && requested == plan.size && planned == |targets| && offset == batchStart + planned <= plan.size
      && targets == Page(list, batchStart, limit)
    }

    /** The first page of the subnets' list; none of them is a /0 network, which the interface filter keeps away. */
    constructor (subnets: seq<Subnet>, port: int, limit: nat, prefilter: bool, mode: TargetMode)
      requires AllValid(subnets) && limit > 0 && !HasDefaultRoute(subnets)
      ensures Valid() && Now() == Submitted(plan)
      ensures this.subnets == subnets && this.port == port && this.mode == mode && plan.prefilter == prefilter
      ensures forall v :: 0 <= v < |list| ==> plan.broadcast(v) == list[v].broadcast
    {
      var page, total, next, more := ExpandTargetsPage(subnets, port, limit, 0, mode);
      ghost var list := VirtualList(subnets, port, mode);
      RequestedIsLength(subnets, port, mode);
      ghost var p := Plan(|list|, limit, prefilter, (v: nat) => v < |list| && list[v].broadcast);
      BatchIsPage(p, list, 0);
      this.subnets, this.port, this.limit, this.mode, this.plan, this.list := subnets, port, limit, mode, p, list;
      targets, requested, planned, offset, batchStart, truncated := page, total, |page|, next, 0, more;
      state, scannedInBatch, devices, seen, canceled := Running, 0, [], {}, false;
      batches, evaluated := [Fresh(p, 0)], {};
    }

    method AcceptDevice(dev: Device) returns (accepted: bool)
      modifies this`seen
      ensures accepted <==> KeyOf(dev) !in old(seen)
      ensures seen == if accepted then old(seen) + {KeyOf(dev)} else old(seen)
    {
      var key := KeyOf(dev);
      if key in seen {
        return false;
      }
      seen := seen + {key};
      return true;
    }

    method AcceptReply(found: seq<Device>)
      modifies this`seen, this`devices
      ensures (devices, seen) == AcceptAll(old(devices), old(seen), found)
    {
      assert found[..0] == [];
      for k := 0 to |found|
        invariant (devices, seen) == AcceptAll(old(devices), old(seen), found[..k])
      {
        assert found[..k + 1][..k] == found[..k];
        var accepted := AcceptDevice(found[k]);
        if accepted {
          devices := devices + [found[k]];
        }
      }
      assert found[..|found|] == found;
    }

    /** The end of one probe; `found` is empty when the probe failed. */
    method ProbeOne(ghost g: nat, ghost i: nat, found: seq<Device>)
      requires Enabled(plan, Now(), ProbeEnd(g, i, found))
      modifies this`batches, this`evaluated, this`scannedInBatch, this`seen, this`devices
      ensures Now() == Answered(old(Now()), g, i, found)
    {
      var counted := Count(g, i, Probed);
      if !counted {
        return;
      }
      AcceptReply(found);
    }

    /** One more target evaluated, unless the job has been cancelled. */
    method Count(ghost g: nat, ghost i: nat, ghost ph: Phase) returns (counted: bool)
      requires g < |batches| && i < |batches[g].phases|
      modifies this`batches, this`evaluated, this`scannedInBatch
      ensures Now() == Evaluated(old(Now()), g, i, ph) && counted == !canceled
    {
      if canceled {
        batches := Advanced(batches, g, i, Abandoned);
        return false;
      }
      evaluated := evaluated + {batches[g].start + i};
      batches := Advanced(batches, g, i, ph);
      scannedInBatch := scannedInBatch + 1;
      return true;
    }

    /** Where the next batch starts, negative when nothing is left to scan. */
    method NextStart() returns (start: int)
      ensures start < 0 <==> Remaining(Now()) <= 0
      ensures start >= 0 ==> start == if CanceledMidBatch(Now()) then batchStart else offset
    {
      var remaining: int := requested - offset;
      var canceledMidBatch := state == Canceled && scannedInBatch < planned;
      if canceledMidBatch {
        remaining := remaining + planned - scannedInBatch;
      }
      if remaining <= 0 {
        return -1;
      }
      return if canceledMidBatch then batchStart else offset;
    }

    method NextPage(start: nat) returns (page: seq<Target>, total: nat, next: nat, more: bool)
      requires Planned()
      ensures Expansion(page, total, next, more) == Expanded(list, plan.size, limit, start)
    {
      page, total, next, more := ExpandTargetsPage(subnets, port, limit, start, mode);
    }

    method StartBatch(start: nat)
      requires Valid() && start <= plan.size
      modifies this
      ensures Valid() && Now() == Started(plan, old(Now()), start)
      ensures start < plan.size ==> targets != []
    {
      var page, total, next, more := NextPage(start);
      StartedFields(plan, Now(), list, start, Expansion(page, total, next, more));
      batches := batches + [Fresh(plan, start)];
      batchStart, requested, offset, planned, targets, truncated := start, total, next, |page|, page, more;
      scannedInBatch, canceled, state := 0, false, Running;
    }

    /**
     The second section of Continue, once batch `awaited` has ended.  When something
     remains the next page is never empty, so there is always a batch to start.
     */
    method ContinueJob(ghost awaited: nat) returns (r: Result<bool, ScanError>)
      requires Valid() && awaited < |batches| && batches[awaited].finished
      modifies this
      ensures Valid() && devices == old(devices) && seen == old(seen)
      ensures old(state) == Running <==> r == Failure(Busy)
      ensures r.Failure? ==> r == Failure(Busy) && Now() == old(Now())
      ensures r.Success? ==>
                && Now() == Step(plan, old(Now()), Continue(awaited))
                && (r.value <==> Remaining(old(Now())) > 0) && (r.value ==> state == Running && targets != [])
    {
      if state == Running {
        return Failure(Busy);
      }
      var start := NextStart();
      if start < 0 {
        return Success(false);
      }
      StartBatch(start);
      return Success(true);
    }
  }

  /** A scan is planned exactly when its subnets yield a target at all. */
  method PlanScan(subnets: seq<Subnet>, port: int, limit: nat, prefilter: bool, mode: TargetMode)
    returns (r: Result<ScanRecord, ScanError>)
    requires AllValid(subnets) && limit > 0 && !HasDefaultRoute(subnets)
    ensures r.Failure? <==> VirtualList(subnets, port, mode) == []
    ensures r.Failure? ==> r.error == NoTargets
    ensures r.Success? ==> fresh(r.value) && r.value.Valid() && r.value.Now() == Submitted(r.value.plan)
                           && r.value.subnets == subnets && r.value.mode == mode
  {
    var job := new ScanRecord(subnets, port, limit, prefilter, mode);
    if |job.targets| == 0 {
      return Failure(NoTargets);
    }
    return Success(job);
  }
}
