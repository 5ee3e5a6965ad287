/**
 The control write limiter (service/controlRateLimit.go): fixed one-minute windows
 per device and per point, checked and charged as one atomic step, with lazy
 removal of windows that have long expired.  Times are in milliseconds.
 */
module RateLimit {

  import opened Collections

  const WINDOW: int := 60_000
  const RETENTION: int := 120_000
  const MAX_ENTRIES: nat := 8192

  datatype Bucket = Bucket(start: int, count: nat)

  type Windows = map<string, Bucket>

  function DeviceKey(device: string): string {
    "d:" + device
  }

  function PointKey(device: string, point: string): string {
    "p:" + device + ['\0'] + point
  }

  function Count(w: Windows, key: string, now: int): nat {
    if key !in w || now - w[key].start >= WINDOW then 0 else w[key].count
  }

  function Consume(w: Windows, key: string, now: int, n: nat): Windows {
    if key !in w || now - w[key].start >= WINDOW then w[key := Bucket(now, n)]
    else w[key := Bucket(w[key].start, w[key].count + n)]
  }

  function ConsumePoints(w: Windows, device: string, points: seq<string>, now: int): Windows {
    if points == [] then w
    else Consume(ConsumePoints(w, device, points[..|points| - 1], now),
                 PointKey(device, points[|points| - 1]), now, 1)
  }

  datatype Limits = Limits(perDevice: int, perPoint: int)

  predicate Admits(l: Limits, w: Windows, device: string, points: seq<string>, now: int) {
    && (l.perDevice > 0 ==> Count(w, DeviceKey(device), now) + |points| <= l.perDevice)
    && (l.perPoint > 0 ==> forall i :: 0 <= i < |points| ==>
          Count(w, PointKey(device, points[i]), now) + 1 <= l.perPoint)
  }

  function Charged(l: Limits, w: Windows, device: string, points: seq<string>, now: int): Windows {
    var v := if l.perDevice > 0 then Consume(w, DeviceKey(device), now, |points|) else w;
    if l.perPoint > 0 then ConsumePoints(v, device, points, now) else v
  }

  function Decided(l: Limits, w: Windows, device: string, points: seq<string>, now: int): Windows {
    if Admits(l, w, device, points, now) then Charged(l, w, device, points, now) else w
  }

  function Pruned(w: Windows, now: int): Windows {
    map k | k in w && now - w[k].start < RETENTION :: w[k]
  }

  class Limiter {
    const limits: Limits
    var windows: Windows
    var lastPrune: int

    constructor (perDevice: int, perPoint: int, epoch: int)
      ensures limits == Limits(perDevice, perPoint) && windows == map[] && lastPrune == epoch
    {
      limits, windows, lastPrune := Limits(perDevice, perPoint), map[], epoch;
    }

    method Prune(now: int)
      modifies this
      ensures windows == old(windows) || windows == Pruned(old(windows), now)
      ensures if |old(windows)| > 8192 || now - old(lastPrune) >= 60_000
              then lastPrune == now && forall k :: k in windows <==> k in old(windows) && now - old(windows)[k].start < 120_000
              else windows == old(windows) && lastPrune == old(lastPrune)
    {
      if |windows| <= MAX_ENTRIES && now - lastPrune < WINDOW {
        return;
      }
      var keys, left := windows.Keys, windows;
      while keys != {}
        invariant windows == old(windows) && keys <= windows.Keys
        invariant forall k :: k in left <==> k in windows && (k in keys || now - windows[k].start < RETENTION)
        invariant forall k :: k in left ==> left[k] == windows[k]
        decreases |keys|
      {
        var key :| key in keys;
        if now - windows[key].start >= RETENTION {
          left := left - {key};
        }
        keys := keys - {key};
      }
      assert left == Pruned(windows, now);
      windows, lastPrune := left, now;
    }

    /** `kept` is what pruning left to decide on; a refused request leaves exactly that. */
    method Allow(device: string, points: seq<string>, now: int) returns (ok: bool, ghost kept: Windows)
      modifies this
      ensures limits.perDevice > 0 || limits.perPoint > 0 ==>
                && (kept == old(windows) || kept == Pruned(old(windows), now))
                && (ok <==> Admits(limits, kept, device, points, now))
                && windows == Decided(limits, kept, device, points, now)
      ensures limits.perDevice <= 0 && limits.perPoint <= 0 ==> ok && windows == old(windows)
    {
      kept := windows;
      if limits.perDevice <= 0 && limits.perPoint <= 0 {
        return true, kept;
      }
      Prune(now);
      kept := windows;
      if limits.perDevice > 0 && Count(windows, DeviceKey(device), now) + |points| > limits.perDevice {
        return false, kept;
      }
      if limits.perPoint > 0 {
        for i := 0 to |points|
          invariant forall j :: 0 <= j < i ==> Count(windows, PointKey(device, points[j]), now) + 1 <= limits.perPoint
        {
          if Count(windows, PointKey(device, points[i]), now) + 1 > limits.perPoint {
            return false, kept;
          }
        }
      }
      Charge(device, points, now);
      return true, kept;
    }

    method Charge(device: string, points: seq<string>, now: int)
      modifies this`windows
      ensures windows == Charged(limits, old(windows), device, points, now)
    {
      if limits.perDevice > 0 {
        windows := Consume(windows, DeviceKey(device), now, |points|);
      }
      if limits.perPoint > 0 {
        ghost var start := windows;
        assert points[..0] == [];
        for i := 0 to |points|
          invariant windows == ConsumePoints(start, device, points[..i], now)
        {
          assert points[..i + 1][..i] == points[..i];
          windows := Consume(windows, PointKey(device, points[i]), now, 1);
        }
        assert points[..|points|] == points;
      }
    }
  }

  // ----- Keys -----

  predicate NoNul(s: string) {
    '\0' !in s
  }

  lemma {:induction false} FirstNulSplits(a: string, b: string, x: string, y: string)
    requires NoNul(a) && NoNul(b) && a + ['\0'] + x == b + ['\0'] + y
    ensures a == b && x == y
  {
    var s, t := a + ['\0'] + x, b + ['\0'] + y;
    if a == [] || b == [] {
      assert s[0] == t[0];
      assert a == [] && b == [];
      assert s[1..] == x && t[1..] == y;
    } else {
      assert s[1..] == a[1..] + ['\0'] + x && t[1..] == b[1..] + ['\0'] + y;
      assert s[0] == t[0];
      FirstNulSplits(a[1..], b[1..], x, y);
    }
  }

  /** Two points share a window only if they are the same point, whatever the point ids look like. */
  lemma KeysAreExact(d: string, p: string, e: string, q: string)
    requires NoNul(d) && NoNul(e)
    ensures PointKey(d, p) == PointKey(e, q) <==> d == e && p == q
    ensures DeviceKey(d) != PointKey(e, q)
    ensures DeviceKey(d) == DeviceKey(e) <==> d == e
  {
    var s, t := PointKey(d, p), PointKey(e, q);
    assert s[2..] == d + ['\0'] + p && t[2..] == e + ['\0'] + q;
    if s == t {
      FirstNulSplits(d, e, p, q);
    }
    assert DeviceKey(d)[0] == 'd' && t[0] == 'p';
    assert DeviceKey(d)[2..] == d && DeviceKey(e)[2..] == e;
  }

  // ----- Pruning changes no decision -----

  /** p may lack windows of u, but only long expired ones. */
  ghost predicate Lags(p: Windows, u: Windows, now: int) {
    && (forall k :: k in p ==> k in u && p[k] == u[k])
    && (forall k :: k in u && k !in p ==> now - u[k].start >= WINDOW)
  }

  lemma LagsCountSame(p: Windows, u: Windows, key: string, now: int)
    requires Lags(p, u, now)
    ensures Count(p, key, now) == Count(u, key, now)
  {
  }

  lemma {:induction false} LagsConsumePoints(p: Windows, u: Windows, device: string, points: seq<string>, now: int)
    requires Lags(p, u, now)
    ensures Lags(ConsumePoints(p, device, points, now), ConsumePoints(u, device, points, now), now)
  {
    if points != [] {
      var front := points[..|points| - 1];
      LagsConsumePoints(p, u, device, front, now);
    }
  }

  lemma LagsDecide(l: Limits, p: Windows, u: Windows, device: string, points: seq<string>, now: int)
    requires Lags(p, u, now)
    ensures Admits(l, p, device, points, now) == Admits(l, u, device, points, now)
    ensures Lags(Decided(l, p, device, points, now), Decided(l, u, device, points, now), now)
  {
    LagsCountSame(p, u, DeviceKey(device), now);
    forall i | 0 <= i < |points|
      ensures Count(p, PointKey(device, points[i]), now) == Count(u, PointKey(device, points[i]), now)
    {
      LagsCountSame(p, u, PointKey(device, points[i]), now);
    }
    LagsConsumePoints(Consume(p, DeviceKey(device), now, |points|), Consume(u, DeviceKey(device), now, |points|),
                      device, points, now);
    LagsConsumePoints(p, u, device, points, now);
  }

  datatype Request = Request(device: string, points: seq<string>, now: int, prune: bool)

  ghost predicate Monotone(rs: seq<Request>) {
    forall i, j :: 0 <= i < j < |rs| ==> rs[i].now <= rs[j].now
  }

  function PrunedRun(l: Limits, rs: seq<Request>): Windows {
    if rs == [] then map[]
    else
      var r := rs[|rs| - 1];
      var w := PrunedRun(l, rs[..|rs| - 1]);
      Decided(l, if r.prune then Pruned(w, r.now) else w, r.device, r.points, r.now)
  }

  function PlainRun(l: Limits, rs: seq<Request>): Windows {
    if rs == [] then map[]
    else
      var r := rs[|rs| - 1];
      Decided(l, PlainRun(l, rs[..|rs| - 1]), r.device, r.points, r.now)
  }

  /** With time that never runs backwards, pruning at any requests whatever decides every request as never pruning. */
  lemma {:induction false} PruningIsInvisible(l: Limits, rs: seq<Request>, next: Request)
    requires Monotone(rs + [next])
    ensures var w := PrunedRun(l, rs);
            var kept := if next.prune then Pruned(w, next.now) else w;
            && Lags(kept, PlainRun(l, rs), next.now)
            && (Admits(l, kept, next.device, next.points, next.now)
                <==> Admits(l, PlainRun(l, rs), next.device, next.points, next.now))
    decreases |rs|
  {
    if rs != [] {
      var front, r := rs[..|rs| - 1], rs[|rs| - 1];
      assert front + [r] == rs;
      assert forall i, j :: 0 <= i < j < |rs| ==> (rs + [next])[i] == rs[i] && (rs + [next])[j] == rs[j];
      PruningIsInvisible(l, front, r);
      var w := PrunedRun(l, front);
      var kept := if r.prune then Pruned(w, r.now) else w;
      LagsDecide(l, kept, PlainRun(l, front), r.device, r.points, r.now);
      assert (rs + [next])[|rs| - 1] == r && (rs + [next])[|rs|] == next;
    }
    var w := PrunedRun(l, rs);
    LagsDecide(l, if next.prune then Pruned(w, next.now) else w, PlainRun(l, rs), next.device, next.points, next.now);
  }

  // ----- How much gets through -----

  /** One charge to one window. */
  datatype Charge = Charge(key: string, at: int, n: nat)

  /** What was charged to key from a to b. */
  function Sum(log: seq<Charge>, key: string, a: int, b: int): nat {
    if log == [] then 0
    else
      var c := log[|log| - 1];
      Sum(log[..|log| - 1], key, a, b) + if c.key == key && a <= c.at <= b then c.n else 0
  }

  lemma {:induction false} SumShrinks(log: seq<Charge>, key: string, a: int, a': int, b: int, b': int)
    requires a <= a' && b' <= b
    ensures Sum(log, key, a', b') <= Sum(log, key, a, b)
  {
    if log != [] {
      SumShrinks(log[..|log| - 1], key, a, a', b, b');
    }
  }

  /** Nothing was charged later than t. */
  ghost predicate UpTo(log: seq<Charge>, t: int) {
    forall i :: 0 <= i < |log| ==> log[i].at <= t
  }

  lemma {:induction false} SumBeyond(log: seq<Charge>, key: string, a: int, b: int, b': int, t: int)
    requires UpTo(log, t) && t <= b && t <= b'
    ensures Sum(log, key, a, b) == Sum(log, key, a, b')
  {
    if log != [] {
      SumBeyond(log[..|log| - 1], key, a, b, b', t);
    }
  }

  /** Nothing was charged to key at or after t. */
  ghost predicate Quiet(log: seq<Charge>, key: string, t: int) {
    forall i :: 0 <= i < |log| && log[i].key == key ==> log[i].at < t
  }

  lemma {:induction false} SumQuiet(log: seq<Charge>, key: string, t: int, b: int)
    requires Quiet(log, key, t)
    ensures Sum(log, key, t, b) == 0
  {
    if log != [] {
      SumQuiet(log[..|log| - 1], key, t, b);
    }
  }

  /**
   The window of a key and the charges to it: the window holds what was charged
   since it began, all charges fell before its end, and no stretch that reaches
   back less than a window before its start saw more than one limit besides it.
   */
  ghost predicate Tallies(w: Windows, log: seq<Charge>, key: string, limit: nat, now: int) {
    && UpTo(log, now)
    && (key !in w ==> forall t :: Quiet(log, key, t))
    && (key in w ==>
          && w[key].start <= now && w[key].count <= limit
          && Sum(log, key, w[key].start, now) == w[key].count
          && Quiet(log, key, w[key].start + WINDOW)
          && forall a :: a > w[key].start - WINDOW ==> Sum(log, key, a, now) <= w[key].count + limit)
  }

  /** No interval shorter than a window saw more than twice the limit. */
  ghost predicate Bounded(log: seq<Charge>, key: string, limit: nat) {
    forall a, b :: b - a < WINDOW ==> Sum(log, key, a, b) <= 2 * limit
  }

  lemma TalliesLater(w: Windows, log: seq<Charge>, key: string, limit: nat, now: int, later: int)
    requires Tallies(w, log, key, limit, now) && now <= later
    ensures Tallies(w, log, key, limit, later)
  {
    if key in w {
      SumBeyond(log, key, w[key].start, now, later, now);
      forall a | a > w[key].start - WINDOW
        ensures Sum(log, key, a, later) <= w[key].count + limit
      {
        SumBeyond(log, key, a, now, later, now);
      }
    }
  }

  /** A charge into a running window. */
  lemma TalliesGrow(w: Windows, log: seq<Charge>, key: string, limit: nat, now: int, n: nat)
    requires Tallies(w, log, key, limit, now) && key in w && now - w[key].start < WINDOW && w[key].count + n <= limit
    ensures Tallies(Consume(w, key, now, n), log + [Charge(key, now, n)], key, limit, now)
  {
    var c := Charge(key, now, n);
    forall a | a > w[key].start - WINDOW
      ensures Sum(log + [c], key, a, now) <= w[key].count + n + limit
    {
    }
  }

  /** A charge that opens a window: what went before lies in one window at most. */
  lemma TalliesOpen(w: Windows, log: seq<Charge>, key: string, limit: nat, now: int, n: nat)
    requires Tallies(w, log, key, limit, now) && (key in w ==> now - w[key].start >= WINDOW) && n <= limit
    ensures Tallies(Consume(w, key, now, n), log + [Charge(key, now, n)], key, limit, now)
  {
    var c := Charge(key, now, n);
    assert Quiet(log, key, now);
    SumQuiet(log, key, now, now);
    forall a | a > now - WINDOW
      ensures Sum(log + [c], key, a, now) <= n + limit
    {
      if key in w {
        SumShrinks(log, key, w[key].start, a, now, now);
      } else {
        SumQuiet(log, key, a, now);
      }
    }
  }

  lemma TalliesCharge(w: Windows, log: seq<Charge>, key: string, limit: nat, now: int, n: nat)
    requires Tallies(w, log, key, limit, now) && Bounded(log, key, limit) && Count(w, key, now) + n <= limit
    ensures Tallies(Consume(w, key, now, n), log + [Charge(key, now, n)], key, limit, now)
    ensures Bounded(log + [Charge(key, now, n)], key, limit)
  {
    var c := Charge(key, now, n);
    var v := Consume(w, key, now, n);
    if key in w && now - w[key].start < WINDOW {
      TalliesGrow(w, log, key, limit, now, n);
    } else {
      TalliesOpen(w, log, key, limit, now, n);
    }
    forall a, b | b - a < WINDOW
      ensures Sum(log + [c], key, a, b) <= 2 * limit
    {
      if a <= now <= b {
        assert v[key].start <= now && a > v[key].start - WINDOW;
        SumBeyond(log + [c], key, a, b, now, now);
      }
    }
  }

  lemma TalliesOther(w: Windows, log: seq<Charge>, key: string, limit: nat, now: int, other: string, n: nat)
    requires Tallies(w, log, key, limit, now) && Bounded(log, key, limit) && other != key
    ensures Tallies(Consume(w, other, now, n), log + [Charge(other, now, n)], key, limit, now)
    ensures Bounded(log + [Charge(other, now, n)], key, limit)
  {
    var c := Charge(other, now, n);
    if key in w {
      forall a | a > w[key].start - WINDOW
        ensures Sum(log + [c], key, a, now) <= w[key].count + limit
      {
      }
    } else {
      forall t
        ensures Quiet(log + [c], key, t)
      {
        assert Quiet(log, key, t);
      }
    }
    forall a, b | b - a < WINDOW
      ensures Sum(log + [c], key, a, b) <= 2 * limit
    {
    }
  }

  // ----- Whole runs -----

  function PointCharges(device: string, points: seq<string>, now: int): seq<Charge> {
    if points == [] then []
    else PointCharges(device, points[..|points| - 1], now) + [Charge(PointKey(device, points[|points| - 1]), now, 1)]
  }

  function Charges(l: Limits, r: Request): seq<Charge> {
    (if l.perDevice > 0 then [Charge(DeviceKey(r.device), r.now, |r.points|)] else [])
    + if l.perPoint > 0 then PointCharges(r.device, r.points, r.now) else []
  }

  /** Everything charged in a run, in order; a refused request charges nothing. */
  function Log(l: Limits, rs: seq<Request>): seq<Charge> {
    if rs == [] then []
    else
      var r := rs[|rs| - 1];
      var front := rs[..|rs| - 1];
      Log(l, front) + if Admits(l, PlainRun(l, front), r.device, r.points, r.now) then Charges(l, r) else []
  }

  ghost predicate DistinctPoints(points: seq<string>) {
    forall i, j :: 0 <= i < j < |points| ==> points[i] != points[j]
  }

  ghost predicate Kept(w: Windows, log: seq<Charge>, key: string, limit: nat, now: int) {
    Tallies(w, log, key, limit, now) && Bounded(log, key, limit)
  }

  lemma PointKeyInjective(d: string, p: string, q: string)
    requires PointKey(d, p) == PointKey(d, q)
    ensures p == q
  {
    var s, t := PointKey(d, p), PointKey(d, q);
    assert s[|d| + 3..] == p && t[|d| + 3..] == q;
  }

  /** Charging the points of one request, none twice. */
  lemma {:induction false} PointsKeep(w: Windows, log: seq<Charge>, key: string, limit: nat, device: string,
                                      points: seq<string>, now: int)
    requires Kept(w, log, key, limit, now) && DistinctPoints(points)
    requires forall i :: 0 <= i < |points| && PointKey(device, points[i]) == key ==> Count(w, key, now) + 1 <= limit
    ensures Kept(ConsumePoints(w, device, points, now), log + PointCharges(device, points, now), key, limit, now)
    ensures (forall i :: 0 <= i < |points| ==> PointKey(device, points[i]) != key) ==>
              Count(ConsumePoints(w, device, points, now), key, now) == Count(w, key, now)
  {
    if points == [] {
      assert log + [] == log;
    } else {
      var front, p := points[..|points| - 1], points[|points| - 1];
      PointsKeep(w, log, key, limit, device, front, now);
      OnePointKeeps(w, log, key, limit, device, front, p, now);
    }
  }

  lemma OnePointKeeps(w: Windows, log: seq<Charge>, key: string, limit: nat, device: string,
                      front: seq<string>, p: string, now: int)
    requires Kept(ConsumePoints(w, device, front, now), log + PointCharges(device, front, now), key, limit, now)
    requires DistinctPoints(front + [p])
    requires PointKey(device, p) == key ==> Count(w, key, now) + 1 <= limit
    requires (forall i :: 0 <= i < |front| ==> PointKey(device, front[i]) != key) ==>
               Count(ConsumePoints(w, device, front, now), key, now) == Count(w, key, now)
    ensures Kept(ConsumePoints(w, device, front + [p], now), log + PointCharges(device, front + [p], now),
                 key, limit, now)
  {
    var points := front + [p];
    assert points[..|points| - 1] == front && points[|points| - 1] == p;
    var v, more := ConsumePoints(w, device, front, now), log + PointCharges(device, front, now);
    var mine := PointKey(device, p);
    assert log + PointCharges(device, points, now) == more + [Charge(mine, now, 1)];
    if mine == key {
      forall i | 0 <= i < |front|
        ensures PointKey(device, front[i]) != key
      {
        assert points[i] != p;
        if PointKey(device, front[i]) == key {
          PointKeyInjective(device, front[i], p);
        }
      }
      TalliesCharge(v, more, key, limit, now, 1);
    } else {
      TalliesOther(v, more, key, limit, now, mine, 1);
    }
  }

  /** The limit a window is under: per device or per point. */
  function LimitOf(l: Limits, key: string): int {
    if key != [] && key[0] == 'd' then l.perDevice else l.perPoint
  }

  lemma DeviceChargeKeeps(l: Limits, w: Windows, log: seq<Charge>, r: Request, key: string)
    requires LimitOf(l, key) > 0 && l.perDevice > 0 && Kept(w, log, key, LimitOf(l, key), r.now)
    requires Count(w, DeviceKey(r.device), r.now) + |r.points| <= l.perDevice
    ensures Kept(Consume(w, DeviceKey(r.device), r.now, |r.points|),
                 log + [Charge(DeviceKey(r.device), r.now, |r.points|)], key, LimitOf(l, key), r.now)
  {
    if key == DeviceKey(r.device) {
      TalliesCharge(w, log, key, LimitOf(l, key), r.now, |r.points|);
    } else {
      TalliesOther(w, log, key, LimitOf(l, key), r.now, DeviceKey(r.device), |r.points|);
    }
  }

  lemma PointChargesKeep(l: Limits, w: Windows, v: Windows, log: seq<Charge>, r: Request, key: string)
    requires LimitOf(l, key) > 0 && l.perPoint > 0 && Kept(v, log, key, LimitOf(l, key), r.now)
    requires DistinctPoints(r.points) && Admits(l, w, r.device, r.points, r.now)
    requires key != DeviceKey(r.device) ==> Count(v, key, r.now) == Count(w, key, r.now)
    ensures Kept(ConsumePoints(v, r.device, r.points, r.now), log + PointCharges(r.device, r.points, r.now),
                 key, LimitOf(l, key), r.now)
  {
    forall i | 0 <= i < |r.points| && PointKey(r.device, r.points[i]) == key
      ensures Count(v, key, r.now) + 1 <= LimitOf(l, key)
    {
      assert key[0] == 'p' && DeviceKey(r.device)[0] == 'd';
    }
    PointsKeep(v, log, key, LimitOf(l, key), r.device, r.points, r.now);
  }

  lemma RequestKeeps(l: Limits, w: Windows, log: seq<Charge>, r: Request, key: string)
    requires LimitOf(l, key) > 0 && Kept(w, log, key, LimitOf(l, key), r.now)
    requires DistinctPoints(r.points) && Admits(l, w, r.device, r.points, r.now)
    ensures Kept(Charged(l, w, r.device, r.points, r.now), log + Charges(l, r), key, LimitOf(l, key), r.now)
  {
    var v, mid := w, log;
    if l.perDevice > 0 {
      DeviceChargeKeeps(l, w, log, r, key);
      v := Consume(w, DeviceKey(r.device), r.now, |r.points|);
      mid := log + [Charge(DeviceKey(r.device), r.now, |r.points|)];
    }
    if l.perPoint > 0 {
      PointChargesKeep(l, w, v, mid, r, key);
      Associate(log, if l.perDevice > 0 then [Charge(DeviceKey(r.device), r.now, |r.points|)] else [],
              PointCharges(r.device, r.points, r.now));
      assert mid == log + if l.perDevice > 0 then [Charge(DeviceKey(r.device), r.now, |r.points|)] else [];
    } else {
      assert log + Charges(l, r) == mid;
    }
  }

  ghost predicate Proper(rs: seq<Request>) {
    Monotone(rs) && forall i :: 0 <= i < |rs| ==> DistinctPoints(rs[i].points)
  }

  lemma {:induction false} RunKeeps(l: Limits, rs: seq<Request>, key: string, now: int)
    requires LimitOf(l, key) > 0 && Proper(rs) && (rs != [] ==> rs[|rs| - 1].now <= now)
    ensures Kept(PlainRun(l, rs), Log(l, rs), key, LimitOf(l, key), now)
    decreases |rs|
  {
    if rs == [] {
      assert forall a, b :: Sum([], key, a, b) == 0;
    } else {
      var front, r := rs[..|rs| - 1], rs[|rs| - 1];
      RunKeeps(l, front, key, r.now);
      if Admits(l, PlainRun(l, front), r.device, r.points, r.now) {
        RequestKeeps(l, PlainRun(l, front), Log(l, front), r, key);
      } else {
        assert Log(l, front) + [] == Log(l, front);
      }
      TalliesLater(PlainRun(l, rs), Log(l, rs), key, LimitOf(l, key), r.now, now);
    }
  }

  /** What a limiter that prunes charges. */
  function PrunedLog(l: Limits, rs: seq<Request>): seq<Charge> {
    if rs == [] then []
    else
      var r := rs[|rs| - 1];
      var w := PrunedRun(l, rs[..|rs| - 1]);
      PrunedLog(l, rs[..|rs| - 1])
      + if Admits(l, if r.prune then Pruned(w, r.now) else w, r.device, r.points, r.now) then Charges(l, r) else []
  }

  lemma {:induction false} PruningChargesTheSame(l: Limits, rs: seq<Request>)
    requires Monotone(rs)
    ensures PrunedLog(l, rs) == Log(l, rs)
  {
    if rs != [] {
      var front, r := rs[..|rs| - 1], rs[|rs| - 1];
      assert front + [r] == rs;
      PruningChargesTheSame(l, front);
      PruningIsInvisible(l, front, r);
    }
  }

  /**
   For every run of requests that name no point twice, in time that never runs
   backwards, with pruning at any of them: no window of a limited device or point
   ever holds more than its limit, and no interval shorter than a minute lets more
   than twice the limit through.
   */
  lemma AnyMinuteBounded(l: Limits, rs: seq<Request>, key: string, a: int, b: int)
    requires LimitOf(l, key) > 0 && Proper(rs) && b - a < WINDOW
    ensures Sum(PrunedLog(l, rs), key, a, b) <= 2 * LimitOf(l, key)
    ensures var w := PrunedRun(l, rs); key in w ==> w[key].count <= LimitOf(l, key)
  {
    var now := if rs == [] then 0 else rs[|rs| - 1].now;
    RunKeeps(l, rs, key, now);
    PruningChargesTheSame(l, rs);
    var next := Request("", [], now, false);
    assert forall i :: 0 <= i < |rs| ==> (rs + [next])[i] == rs[i];
    PruningIsInvisible(l, rs, next);
  }

  // ----- A point named more than once -----

  lemma DeviceIsNoPoint(device: string, point: string)
    ensures DeviceKey(device) != PointKey(device, point)
  {
    assert DeviceKey(device)[0] == 'd' && PointKey(device, point)[0] == 'p';
  }

  lemma {:induction false} PointsCharged(w: Windows, device: string, points: seq<string>, now: int, p: string)
    ensures Count(ConsumePoints(w, device, points, now), PointKey(device, p), now)
            == Count(w, PointKey(device, p), now) + multiset(points)[p]
  {
    if points != [] {
      var front, last := points[..|points| - 1], points[|points| - 1];
      assert points == front + [last];
      PointsCharged(w, device, front, now, p);
      if last != p && PointKey(device, last) == PointKey(device, p) {
        PointKeyInjective(device, last, p);
      }
    }
  }

  /**
   The points of one request are checked against the state before any is charged.
   So an admitted request fills the window of each point by as often as it names
   it, and overruns the limit exactly when that is more than the window had room
   for; when no point is named twice it never does.
   */
  lemma DuplicatePointOverruns(l: Limits, w: Windows, device: string, points: seq<string>, now: int, p: string)
    requires l.perPoint > 0 && Admits(l, w, device, points, now) && p in points
    ensures Count(Charged(l, w, device, points, now), PointKey(device, p), now)
            == Count(w, PointKey(device, p), now) + multiset(points)[p]
    ensures Count(Charged(l, w, device, points, now), PointKey(device, p), now) > l.perPoint
            <==> multiset(points)[p] > l.perPoint - Count(w, PointKey(device, p), now)
    ensures DistinctPoints(points) ==> Count(Charged(l, w, device, points, now), PointKey(device, p), now) <= l.perPoint
  {
    DeviceIsNoPoint(device, p);
    var v := if l.perDevice > 0 then Consume(w, DeviceKey(device), now, |points|) else w;
    PointsCharged(v, device, points, now, p);
    if DistinctPoints(points) {
      NamedOnce(points, p);
    }
  }

  lemma {:induction false} NamedOnce(points: seq<string>, p: string)
    requires DistinctPoints(points)
    ensures multiset(points)[p] <= 1
  {
    if points != [] {
      var front, last := points[..|points| - 1], points[|points| - 1];
      assert points == front + [last];
      NamedOnce(front, p);
      if last == p {
        assert p !in front;
      }
    }
  }

  /** Every window the request would charge still keeps its limit once it is charged. */
  ghost predicate KeepsLimits(l: Limits, w: Windows, device: string, points: seq<string>, now: int) {
    && (l.perDevice > 0 ==> Count(w, DeviceKey(device), now) <= l.perDevice)
    && (l.perPoint > 0 ==> forall p :: p in points ==> Count(w, PointKey(device, p), now) <= l.perPoint)
  }

  lemma {:induction false} PointsLeaveDevice(w: Windows, device: string, points: seq<string>, now: int)
    ensures Count(ConsumePoints(w, device, points, now), DeviceKey(device), now) == Count(w, DeviceKey(device), now)
  {
    if points != [] {
      PointsLeaveDevice(w, device, points[..|points| - 1], now);
      DeviceIsNoPoint(device, points[|points| - 1]);
    }
  }

  lemma ChargedCounts(l: Limits, w: Windows, device: string, points: seq<string>, now: int, p: string)
    ensures l.perDevice > 0 ==>
              Count(Charged(l, w, device, points, now), DeviceKey(device), now) == Count(w, DeviceKey(device), now) + |points|
    ensures l.perPoint > 0 ==>
              Count(Charged(l, w, device, points, now), PointKey(device, p), now)
              == Count(w, PointKey(device, p), now) + multiset(points)[p]
  {
    DeviceIsNoPoint(device, p);
    var v := if l.perDevice > 0 then Consume(w, DeviceKey(device), now, |points|) else w;
    PointsLeaveDevice(v, device, points, now);
    PointsCharged(v, device, points, now, p);
  }

  /**
   A request that names no point twice is admitted exactly when all the windows it
   is charged to have room for it: none is refused that would keep every limit.
   */
  lemma AdmittedExactly(l: Limits, w: Windows, device: string, points: seq<string>, now: int)
    requires DistinctPoints(points)
    ensures Admits(l, w, device, points, now) <==> KeepsLimits(l, Charged(l, w, device, points, now), device, points, now)
  {
    ChargedCounts(l, w, device, points, now, "");
    forall p | p in points
      ensures l.perPoint > 0 ==>
                Count(Charged(l, w, device, points, now), PointKey(device, p), now) == Count(w, PointKey(device, p), now) + 1
    {
      ChargedCounts(l, w, device, points, now, p);
      NamedOnce(points, p);
      assert multiset(points)[p] > 0;
    }
    if KeepsLimits(l, Charged(l, w, device, points, now), device, points, now) && l.perPoint > 0 {
      forall i | 0 <= i < |points|
        ensures Count(w, PointKey(device, points[i]), now) + 1 <= l.perPoint
      {
        assert points[i] in points;
      }
    }
  }

  /** A window counts for one minute from its first charge, and then starts again. */
  lemma WindowLastsAMinute(w: Windows, key: string, start: int, n: nat, now: int, more: nat)
    requires w == map[key := Bucket(start, n)]
    ensures Count(w, key, now) == if now < start + 60_000 then n else 0
    ensures Consume(w, key, now, more) == map[key := if now < start + 60_000 then Bucket(start, n + more) else Bucket(now, more)]
  {
  }
}
