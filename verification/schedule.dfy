/**
 The two-stage scan schedule and its announced upper bound
 (devicescan/engine.go): a semaphore of c slots takes the jobs in order, each as
 soon as a slot is free.
 */
module Schedule {

  const MAX_ESTIMATE_MS: nat := 0x7FFF_FFFF

  function Saturate(v: int): (ms: nat)
    ensures ms <= MAX_ESTIMATE_MS
    ensures 0 <= v <= MAX_ESTIMATE_MS ==> ms == v
  {
    if v <= 0 then 0 else if v > MAX_ESTIMATE_MS then MAX_ESTIMATE_MS else v
  }

  function EstimateOf(n: int, slots: int, budgetMs: int): (ms: nat) {
    if n <= 0 || slots <= 0 || budgetMs <= 0 then 0
    else Saturate(((n + slots - 1) / slots) * budgetMs)
  }

  /** The bound for one batch: `unicast` of its `targets` are dialled first when it is prefiltered. */
  function EstimateBatch(targets: nat, unicast: nat, prefilter: bool,
                         dialSlots: int, dialMs: int, probeSlots: int, probeMs: int): (ms: nat)
  {
    var probe := EstimateOf(targets, probeSlots, probeMs);
    if !prefilter then probe else Saturate(probe + EstimateOf(unicast, dialSlots, dialMs))
  }

  /** One job: when it takes its slot and how long it holds it. */
  datatype Job = Job(start: nat, dur: nat)

  /** How many of the jobs still hold a slot at time t. */
  function Holding(jobs: seq<Job>, t: nat): (n: nat)
    ensures n <= |jobs|
  {
    if jobs == [] then 0
    else Holding(jobs[..|jobs| - 1], t) + if jobs[|jobs| - 1].start + jobs[|jobs| - 1].dur > t then 1 else 0
  }

  ghost function EarliestFor(jobs: seq<Job>, i: nat): nat
    requires i < |jobs|
  {
    if i == 0 then 0 else jobs[i - 1].start
  }

  /**
   The dispatch loop: job i is taken up after job i-1, never while all slots are
   held, and without waiting once one is free.
   */
  ghost predicate Dispatched(jobs: seq<Job>, slots: nat) {
    forall i :: 0 <= i < |jobs| ==> TakenUpAt(jobs, slots, i)
  }

  ghost predicate TakenUpAt(jobs: seq<Job>, slots: nat, i: nat)
    requires i < |jobs|
  {
    && EarliestFor(jobs, i) <= jobs[i].start
    && Holding(jobs[..i], jobs[i].start) < slots
    && forall t :: EarliestFor(jobs, i) <= t < jobs[i].start ==> Holding(jobs[..i], t) >= slots
  }

  ghost predicate WithinBudget(jobs: seq<Job>, budget: nat) {
    forall j :: 0 <= j < |jobs| ==> jobs[j].dur <= budget
  }

  /** Everything has finished by time t. */
  ghost predicate FinishedBy(jobs: seq<Job>, t: nat) {
    forall j :: 0 <= j < |jobs| ==> jobs[j].start + jobs[j].dur <= t
  }

  lemma {:induction false} OnlyTheLastHold(jobs: seq<Job>, done: nat, t: nat)
    requires done <= |jobs| && FinishedBy(jobs[..done], t)
    ensures Holding(jobs, t) <= |jobs| - done
  {
    if jobs != [] && done < |jobs| {
      var front := jobs[..|jobs| - 1];
      assert front[..done] == jobs[..done];
      OnlyTheLastHold(front, done, t);
    } else if jobs != [] {
      assert jobs[..done] == jobs;
      NoneHold(jobs, t);
    }
  }

  lemma {:induction false} NoneHold(jobs: seq<Job>, t: nat)
    requires FinishedBy(jobs, t)
    ensures Holding(jobs, t) == 0
  {
    if jobs != [] {
      NoneHold(jobs[..|jobs| - 1], t);
    }
  }

  /** The time by which all rounds before that of job i are over: (i/c) budgets. */
  function RoundTime(i: nat, c: nat, budget: nat): nat
    requires c > 0
  {
    if i < c then 0 else RoundTime(i - c, c, budget) + budget
  }

  lemma {:induction false} RoundTimeMonotone(a: nat, b: nat, c: nat, budget: nat)
    requires c > 0 && a <= b
    ensures RoundTime(a, c, budget) <= RoundTime(b, c, budget)
  {
    if c <= a {
      RoundTimeMonotone(a - c, b - c, c, budget);
    }
  }

  lemma NextRound(j: nat, i: nat, c: nat, budget: nat)
    requires c > 0 && j + c <= i
    ensures RoundTime(j, c, budget) + budget <= RoundTime(i, c, budget)
  {
    RoundTimeMonotone(j + c, i, c, budget);
  }

  lemma QuotientUnique(q: int, p: int, c: int, r: int, s: int)
    requires 0 <= r < c && 0 <= s < c && q * c + r == p * c + s
    ensures q == p
  {
    if q < p {
      Widen(q, p, c);
    } else if p < q {
      Widen(p, q, c);
    }
  }

  lemma Widen(q: int, p: int, c: int)
    requires q < p && 0 < c
    ensures q * c + c <= p * c
  {
    assert (p - q - 1) * c >= 0;
    assert p * c == q * c + (p - q - 1) * c + c;
  }

  lemma QuotientSteps(i: nat, c: nat)
    requires 0 < c <= i
    ensures i / c == (i - c) / c + 1
  {
    var q, r := (i - c) / c, (i - c) % c;
    assert i - c == q * c + r;
    assert (q + 1) * c == q * c + c;
    QuotientUnique(q + 1, i / c, c, r, i % c);
  }

  lemma {:induction false} RoundTimeIsQuotient(i: nat, c: nat, budget: nat)
    requires c > 0
    ensures RoundTime(i, c, budget) == (i / c) * budget
  {
    if c <= i {
      RoundTimeIsQuotient(i - c, c, budget);
      QuotientSteps(i, c);
    }
  }

  /** Job i starts once the rounds before its own are over, for every completion order. */
  lemma {:induction false} StartsWithinRounds(jobs: seq<Job>, slots: nat, budget: nat, i: nat)
    requires slots > 0 && Dispatched(jobs, slots) && WithinBudget(jobs, budget)
    requires i < |jobs|
    ensures jobs[i].start <= RoundTime(i, slots, budget)
  {
    var t := RoundTime(i, slots, budget);
    var done := if i < slots then 0 else i - slots + 1;
    forall j | 0 <= j < done
      ensures jobs[j].start + jobs[j].dur <= t
    {
      StartsWithinRounds(jobs, slots, budget, j);
      NextRound(j, i, slots, budget);
    }
    if i > 0 {
      assert TakenUpAt(jobs, slots, i);
      StartsWithinRounds(jobs, slots, budget, i - 1);
      RoundTimeMonotone(i - 1, i, slots, budget);
    }
    FreeBy(jobs, slots, i, done, t);
  }

  /** If all but slots - 1 of the earlier jobs are over by t, job i need not wait beyond t. */
  lemma FreeBy(jobs: seq<Job>, slots: nat, i: nat, done: nat, t: nat)
    requires Dispatched(jobs, slots) && done <= i < |jobs| && i - done < slots
    requires EarliestFor(jobs, i) <= t
    requires forall j :: 0 <= j < done ==> jobs[j].start + jobs[j].dur <= t
    ensures jobs[i].start <= t
  {
    assert TakenUpAt(jobs, slots, i);
    assert jobs[..i][..done] == jobs[..done];
    OnlyTheLastHold(jobs[..i], done, t);
  }

  /** One stage ends within ceil(n/c) budgets. */
  lemma StageWithinRounds(jobs: seq<Job>, slots: nat, budget: nat)
    requires slots > 0 && Dispatched(jobs, slots) && WithinBudget(jobs, budget)
    ensures FinishedBy(jobs, RoundTime(|jobs| + slots - 1, slots, budget))
  {
    forall i | 0 <= i < |jobs|
      ensures jobs[i].start + jobs[i].dur <= RoundTime(|jobs| + slots - 1, slots, budget)
    {
      StartsWithinRounds(jobs, slots, budget, i);
      NextRound(i, |jobs| + slots - 1, slots, budget);
    }
  }

  lemma EstimateIsRoundTime(n: nat, slots: nat, budget: nat)
    requires slots > 0 && EstimateOf(n, slots, budget) < MAX_ESTIMATE_MS
    ensures n > 0 && budget > 0 ==> EstimateOf(n, slots, budget) == RoundTime(n + slots - 1, slots, budget)
  {
    RoundTimeIsQuotient(n + slots - 1, slots, budget);
  }

  lemma {:induction false} RoundTimeOfZero(i: nat, c: nat)
    requires c > 0
    ensures RoundTime(i, c, 0) == 0
  {
    if c <= i {
      RoundTimeOfZero(i - c, c);
    }
  }

  lemma StageWithinEstimate(jobs: seq<Job>, announced: nat, slots: nat, budget: nat)
    requires slots > 0 && Dispatched(jobs, slots) && WithinBudget(jobs, budget)
    requires |jobs| <= announced && EstimateOf(announced, slots, budget) < MAX_ESTIMATE_MS
    ensures FinishedBy(jobs, EstimateOf(announced, slots, budget))
  {
    StageWithinRounds(jobs, slots, budget);
    EstimateIsRoundTime(announced, slots, budget);
    RoundTimeMonotone(|jobs| + slots - 1, announced + slots - 1, slots, budget);
    RoundTimeOfZero(|jobs| + slots - 1, slots);
  }

  /**
   A whole batch: the dials run first, the probes of the survivors start once the
   dials are over (times of each stage counted from its own start).  Whenever the
   announced bound is below its cap, the batch is over by then.
   */
  lemma BatchWithinEstimate(dials: seq<Job>, probes: seq<Job>, targets: nat, unicast: nat, prefilter: bool,
                            dialSlots: nat, dialMs: nat, probeSlots: nat, probeMs: nat,
                            dialEnd: nat, probeEnd: nat)
    requires dialSlots > 0 && probeSlots > 0
    requires Dispatched(dials, dialSlots) && WithinBudget(dials, dialMs)
    requires Dispatched(probes, probeSlots) && WithinBudget(probes, probeMs)
    requires |dials| <= (if prefilter then unicast else 0) && |probes| <= targets
    requires LastEnd(dials, dialEnd) && LastEnd(probes, probeEnd)
    requires EstimateBatch(targets, unicast, prefilter, dialSlots, dialMs, probeSlots, probeMs) < MAX_ESTIMATE_MS
    ensures dialEnd + probeEnd
            <= EstimateBatch(targets, unicast, prefilter, dialSlots, dialMs, probeSlots, probeMs)
  {
    StageWithinEstimate(probes, targets, probeSlots, probeMs);
    if prefilter {
      StageWithinEstimate(dials, unicast, dialSlots, dialMs);
    }
  }

  /** The moment the last job of a stage ends; 0 for an empty stage. */
  ghost predicate LastEnd(jobs: seq<Job>, t: nat) {
    && FinishedBy(jobs, t)
    && (t == 0 || exists j :: 0 <= j < |jobs| && jobs[j].start + jobs[j].dur == t)
  }

  /** n jobs that all use their whole budget, each taken up once the rounds before its own are over. */
  function FullLoad(n: nat, slots: nat, budget: nat): (jobs: seq<Job>)
    requires slots > 0
    ensures |jobs| == n
    ensures forall i :: 0 <= i < n ==> jobs[i] == Job(RoundTime(i, slots, budget), budget)
  {
    seq(n, i requires 0 <= i => Job(RoundTime(i, slots, budget), budget))
  }

  lemma {:induction false} AllHold(jobs: seq<Job>, from: nat, t: nat)
    requires from <= |jobs| && forall j :: from <= j < |jobs| ==> jobs[j].start + jobs[j].dur > t
    ensures Holding(jobs, t) >= |jobs| - from
  {
    if from < |jobs| {
      AllHold(jobs[..|jobs| - 1], from, t);
    }
  }

  /** Job i finds a slot when its round begins, and none before. */
  lemma FullLoadTakenUp(n: nat, slots: nat, budget: nat, i: nat)
    requires slots > 0 && i < n
    ensures TakenUpAt(FullLoad(n, slots, budget), slots, i)
  {
    var jobs := FullLoad(n, slots, budget);
    var earlier, start := jobs[..i], RoundTime(i, slots, budget);
    var done := if i < slots then 0 else i - slots + 1;
    forall j | 0 <= j < done
      ensures jobs[j].start + jobs[j].dur <= start
    {
      NextRound(j, i, slots, budget);
    }
    OnlyTheLastHold(earlier, done, start);
    if i > 0 {
      RoundTimeMonotone(i - 1, i, slots, budget);
    }
    forall t | EarliestFor(jobs, i) <= t < start
      ensures Holding(earlier, t) >= slots
    {
      forall j | i - slots <= j < i
        ensures earlier[j].start + earlier[j].dur > t
      {
        RoundTimeMonotone(i, j + slots, slots, budget);
      }
      AllHold(earlier, i - slots, t);
    }
  }

  /** The bound is attained, for any number of jobs, slots and any budget: by jobs that all use their budget. */
  lemma BoundIsReached(n: nat, slots: nat, budget: nat)
    requires n > 0 && slots > 0
    ensures var jobs := FullLoad(n, slots, budget);
            && Dispatched(jobs, slots) && WithinBudget(jobs, budget)
            && LastEnd(jobs, ((n + slots - 1) / slots) * budget)
  {
    var jobs := FullLoad(n, slots, budget);
    forall i | 0 <= i < n
      ensures TakenUpAt(jobs, slots, i)
    {
      FullLoadTakenUp(n, slots, budget, i);
    }
    StageWithinRounds(jobs, slots, budget);
    RoundTimeIsQuotient(n + slots - 1, slots, budget);
    assert jobs[n - 1].start + jobs[n - 1].dur == RoundTime(n - 1 + slots, slots, budget);
  }
}
