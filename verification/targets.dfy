/**
 The scan targets of a set of subnets (devicescan/targets.go): one fixed virtual
 list, of which every call materialises a page.  A host is the number its four
 bytes spell; rendering it as text is left out.
 */
module Targets {
  import opened Wrappers
  import opened Ipv4

  /** `net` is what parsing the CIDR text gives: nothing when it is not an IPv4 CIDR. */
  datatype Subnet = Subnet(cidr: string, localIP: string, net: Option<Network>)
  {
    ghost predicate Valid() {
      net.Some? ==> net.value.Valid()
    }
  }

  datatype Target = Target(host: nat, port: int, localIP: string, subnet: string, broadcast: bool)

  /** A plugin declares one of three modes; anything else, blank included, is Other. */
  datatype TargetMode = Unicast | Broadcast | Both | Other

  function NormalizeTargetMode(mode: TargetMode): (m: TargetMode)
    ensures m == if mode == Other then Unicast else mode
  {
    match mode
    case Broadcast => Broadcast
    case Both => Both
    case _ => Unicast
  }

  predicate WantsUnicast(mode: TargetMode) {
    var m := NormalizeTargetMode(mode); m == Unicast || m == Both
  }

  predicate WantsBroadcast(mode: TargetMode) {
    var m := NormalizeTargetMode(mode); m == Broadcast || m == Both
  }

  /** The target count of a prefix as the source computes it up front. */
  function HostCount(ones: nat): (n: nat) {
    if ones <= 0 || ones >= 32 then 0
    else if ones == 31 then 0
    else Pow2(32 - ones) - 2
  }

  /** The count as the address walk produces it. */
  function WalkCount(ones: nat): (n: nat) {
    if ones >= 31 then 0
    else
      PowAtLeast4(32 - ones);
      Pow2(32 - ones) - 2
  }

  lemma PowAtLeast4(n: nat)
    requires n >= 2
    ensures Pow2(n) >= 4
  {
    assert Pow2(n) == 2 * Pow2(n - 1) && Pow2(n - 1) == 2 * Pow2(n - 2);
  }

  predicate Broadcastable(ones: nat) {
    1 <= ones <= 30
  }

  // ---- the virtual list ----

  function BroadcastsOf(s: Subnet, port: int): (ts: seq<Target>)
    requires s.Valid()
  {
    if s.net.Some? && Broadcastable(s.net.value.ones) then
      var net := s.net.value;
      [Target(net.Base() + net.Size() - 1, port, s.localIP, s.cidr, true)]
    else []
  }

  function HostsOf(s: Subnet, port: int): (ts: seq<Target>)
    requires s.Valid()
    ensures |ts| == if s.net.Some? then WalkCount(s.net.value.ones) else 0
    ensures forall k :: 0 <= k < |ts| ==> ts[k] == Target(s.net.value.Base() + 1 + k, port, s.localIP, s.cidr, false)
  {
    if s.net.None? then []
    else seq(WalkCount(s.net.value.ones), k requires 0 <= k =>
               Target(s.net.value.Base() + 1 + k, port, s.localIP, s.cidr, false))
  }

  ghost predicate AllValid(subnets: seq<Subnet>) {
    forall s :: s in subnets ==> s.Valid()
  }

  function AllBroadcasts(subnets: seq<Subnet>, port: int): (ts: seq<Target>)
    requires AllValid(subnets)
  {
    if subnets == [] then []
    else AllBroadcasts(subnets[..|subnets| - 1], port) + BroadcastsOf(subnets[|subnets| - 1], port)
  }

  function AllHosts(subnets: seq<Subnet>, port: int): (ts: seq<Target>)
    requires AllValid(subnets)
  {
    if subnets == [] then []
    else AllHosts(subnets[..|subnets| - 1], port) + HostsOf(subnets[|subnets| - 1], port)
  }

  /** Broadcast targets first, then every host of every subnet. */
  function VirtualList(subnets: seq<Subnet>, port: int, mode: TargetMode): (ts: seq<Target>)
    requires AllValid(subnets)
  {
    (if WantsBroadcast(mode) then AllBroadcasts(subnets, port) else [])
    + (if WantsUnicast(mode) then AllHosts(subnets, port) else [])
  }

  function RequestedOf(s: Subnet, mode: TargetMode): (n: nat) {
    if s.net.None? then 0
    else
      (if WantsBroadcast(mode) && Broadcastable(s.net.value.ones) then 1 else 0)
      + (if WantsUnicast(mode) then HostCount(s.net.value.ones) else 0)
  }

  function Requested(subnets: seq<Subnet>, mode: TargetMode): (n: nat) {
    if subnets == [] then 0
    else Requested(subnets[..|subnets| - 1], mode) + RequestedOf(subnets[|subnets| - 1], mode)
  }

  // ---- pages ----

  function Page<T>(list: seq<T>, offset: nat, limit: nat): (page: seq<T>)
    ensures |page| <= limit
  {
    if |list| <= offset then []
    else if |list| <= offset + limit then list[offset..]
    else list[offset..offset + limit]
  }

  lemma PageAppend<T>(list: seq<T>, x: T, offset: nat, limit: nat)
    ensures Page(list + [x], offset, limit)
            == if offset <= |list| && |Page(list, offset, limit)| < limit
               then Page(list, offset, limit) + [x] else Page(list, offset, limit)
  {
  }

  lemma FullPageStands<T>(seen: seq<T>, list: seq<T>, offset: nat, limit: nat)
    requires |Page(seen, offset, limit)| == limit && seen <= list
    ensures Page(list, offset, limit) == Page(seen, offset, limit)
  {
  }

  /** The emitter: counts every target of the list, keeps those of the page. */
  class Pager {
    const offset: nat
    const limit: nat
    var idx: nat
    var targets: seq<Target>
    var full: bool
    ghost var emitted: seq<Target>

    ghost predicate Valid()
      reads this
    {
      && limit > 0
      && idx == |emitted|
      && targets == Page(emitted, offset, limit)
      && full == (|targets| >= limit)
    }

    constructor (offset: nat, limit: nat)
      requires limit > 0
      ensures Valid() && emitted == [] && !full && this.offset == offset && this.limit == limit
    {
      this.offset, this.limit := offset, limit;
      idx, targets, full, emitted := 0, [], false, [];
    }

    method Emit(t: Target)
      requires Valid()
      modifies this
      ensures Valid() && emitted == old(emitted) + [t]
    {
      PageAppend(emitted, t, offset, limit);
      if idx >= offset && |targets| < limit {
        targets := targets + [t];
      }
      idx := idx + 1;
      if |targets| >= limit {
        full := true;
      }
      emitted := emitted + [t];
    }

    /** The address walk over one subnet, stopping when the page is full; n hosts are emitted. */
    method WalkHosts(s: Subnet, port: int) returns (ghost n: nat)
      requires Valid() && !full && s.Valid()
      modifies this
      ensures Valid() && HostsEmitted(s, port, old(emitted), emitted, n)
      ensures !full ==> n == |HostsOf(s, port)|
    {
      n := 0;
      if s.net.None? {
        return;
      }
      var net := s.net.value;
      var bcast := BroadcastOf(net);
      var ip := NextIP(net.ip);
      while net.Contains(ip) && ip != bcast
        invariant Valid() && !full
        invariant WalkAt(net, ip, bcast, n)
        invariant HostsEmitted(s, port, old(emitted), emitted, n)
        decreases WalkCount(net.ones) - n
      {
        WalkGuard(net, ip, bcast, n);
        HostsGrow(s, port, old(emitted), emitted, n, Value(ip));
        Emit(Target(Value(ip), port, s.localIP, s.cidr, false));
        n := n + 1;
        if full {
          return;
        }
        ip := NextIP(ip);
      }
      WalkGuard(net, ip, bcast, n);
    }
  }

  /** The first n hosts of a subnet have been emitted. */
  ghost predicate HostsEmitted(s: Subnet, port: int, before: seq<Target>, after: seq<Target>, n: nat)
    requires s.Valid()
  {
    n <= |HostsOf(s, port)| && after == before + HostsOf(s, port)[..n]
  }

  /** After n steps of the walk over net. */
  ghost predicate WalkAt(net: Network, ip: Ip4, bcast: Ip4, n: nat) {
    && net.Valid() && n <= WalkCount(net.ones)
    && Value(ip) == (net.Base() + 1 + n) % SPACE
    && Value(bcast) == net.Base() + net.Size() - 1
  }

  lemma HostsGrow(s: Subnet, port: int, before: seq<Target>, after: seq<Target>, n: nat, host: nat)
    requires s.Valid() && s.net.Some? && n < WalkCount(s.net.value.ones)
    requires HostsEmitted(s, port, before, after, n) && host == s.net.value.Base() + 1 + n
    ensures HostsEmitted(s, port, before, after + [Target(host, port, s.localIP, s.cidr, false)], n + 1)
  {
    var hosts := HostsOf(s, port);
    assert hosts[..n] + [hosts[n]] == hosts[..n + 1];
  }

  /** The loop guard of the walk holds exactly while hosts remain; then no address wraps. */
  lemma WalkGuard(net: Network, ip: Ip4, bcast: Ip4, n: nat)
    requires WalkAt(net, ip, bcast, n)
    ensures net.Contains(ip) && ip != bcast <==> n < WalkCount(net.ones)
    ensures n < WalkCount(net.ones) ==> && Value(ip) == net.Base() + 1 + n
                                        && (Value(ip) + 1) % SPACE == (net.Base() + 1 + (n + 1)) % SPACE
  {
    RangeFits(net);
    ContainsIsRange(net, ip);
    SameAddress(ip, bcast);
    SizeIsWalkCount(net);
    WalkArithmetic(net.Base(), net.Size(), n, Value(ip));
  }

  lemma SameAddress(a: Ip4, b: Ip4)
    ensures a == b <==> Value(a) == Value(b)
  {
    if Value(a) == Value(b) {
      ValueInjective(a, b);
    }
  }

  lemma SizeIsWalkCount(net: Network)
    requires net.ones <= 32
    ensures net.Size() > 0 && WalkCount(net.ones) == if net.Size() <= 2 then 0 else net.Size() - 2
  {
    assert net.ones == 31 ==> Pow2(1) == 2 * Pow2(0);
    if net.ones <= 30 {
      PowAtLeast4(32 - net.ones);
    }
  }

  lemma WalkArithmetic(base: nat, size: nat, n: nat, v: nat)
    requires 0 < size && base + size <= SPACE
    requires n == 0 || n <= size - 2
    requires v == (base + 1 + n) % SPACE
    ensures base <= v < base + size && v != base + size - 1 <==> n < size - 2
    ensures n < size - 2 ==> v == base + 1 + n && (v + 1) % SPACE == (base + 1 + (n + 1)) % SPACE
  {
  }

  datatype Expansion = Expansion(targets: seq<Target>, requested: nat, nextOffset: nat, truncated: bool)

  /** What one call yields of a list of which `requested` elements are announced: a page, and where the next one starts. */
  function Expanded(list: seq<Target>, requested: nat, limit: int, offset: int): (e: Expansion) {
    var start := if offset < 0 then 0 else offset;
    var targets := Page(list, start, if limit < 0 then 0 else limit);
    var next := if limit > 0 && start + |targets| > requested then requested else start + |targets|;
    Expansion(targets, requested, next, next < requested)
  }

  /** The total, counted apart from the page. */
  method CountTargets(subnets: seq<Subnet>, mode: TargetMode) returns (requested: nat)
    ensures requested == Requested(subnets, mode)
  {
    requested := 0;
    for i := 0 to |subnets|
      invariant requested == Requested(subnets[..i], mode)
    {
      assert subnets[..i + 1][..i] == subnets[..i];
      if subnets[i].net.Some? {
        var ones := subnets[i].net.value.ones;
        if WantsBroadcast(mode) && Broadcastable(ones) {
          requested := requested + 1;
        }
        if WantsUnicast(mode) {
          requested := requested + HostCount(ones);
        }
      }
    }
    assert subnets[..|subnets|] == subnets;
  }

  method ExpandTargetsPage(subnets: seq<Subnet>, port: int, limit: int, offset: int, mode: TargetMode)
    returns (targets: seq<Target>, requested: nat, nextOffset: nat, truncated: bool)
    requires AllValid(subnets)
    ensures Expansion(targets, requested, nextOffset, truncated)
            == Expanded(VirtualList(subnets, port, mode), Requested(subnets, mode), limit, offset)
  {
    requested := CountTargets(subnets, mode);
    var start := if offset < 0 then 0 else offset;
    if limit <= 0 {
      return [], requested, start, start < requested;
    }
    var page := new Pager(start, limit);
    EmitAll(page, subnets, port, mode);
    targets := page.targets;
    nextOffset := start + |targets|;
    if nextOffset > requested {
      nextOffset := requested;
    }
    truncated := nextOffset < requested;
  }

  /** The two emitting loops; a full page ends them early and stands. */
  method EmitAll(page: Pager, subnets: seq<Subnet>, port: int, mode: TargetMode)
    requires page.Valid() && page.emitted == [] && !page.full && AllValid(subnets)
    modifies page
    ensures page.targets == Page(VirtualList(subnets, port, mode), page.offset, page.limit)
  {
    ghost var list := VirtualList(subnets, port, mode);
    if WantsBroadcast(mode) {
      EmitBroadcasts(page, subnets, port);
    }
    if WantsUnicast(mode) && !page.full {
      EmitHosts(page, subnets, port);
    }
    if page.full {
      FullPageStands(page.emitted, list, page.offset, page.limit);
    } else {
      assert page.emitted == list;
    }
  }

  method EmitBroadcasts(page: Pager, subnets: seq<Subnet>, port: int)
    requires page.Valid() && page.emitted == [] && !page.full && AllValid(subnets)
    modifies page
    ensures page.Valid() && page.emitted <= AllBroadcasts(subnets, port)
    ensures !page.full ==> page.emitted == AllBroadcasts(subnets, port)
  {
    var i := 0;
    while i < |subnets| && !page.full
      invariant page.Valid() && i <= |subnets|
      invariant page.emitted == AllBroadcasts(subnets[..i], port)
    {
      var s := subnets[i];
      assert s in subnets && s.Valid();
      BroadcastsStep(subnets, i, port);
      if s.net.Some? && Broadcastable(s.net.value.ones) {
        var bcast := BroadcastOf(s.net.value);
        page.Emit(Target(Value(bcast), port, s.localIP, s.cidr, true));
      }
      i := i + 1;
    }
    BroadcastsExtend(subnets, i, port);
    assert i == |subnets| ==> subnets[..i] == subnets;
  }

  lemma BroadcastsStep(subnets: seq<Subnet>, i: nat, port: int)
    requires AllValid(subnets) && i < |subnets| && subnets[i].Valid()
    ensures AllBroadcasts(subnets[..i + 1], port)
            == AllBroadcasts(subnets[..i], port) + BroadcastsOf(subnets[i], port)
  {
    assert subnets[..i + 1][..i] == subnets[..i];
  }

  method EmitHosts(page: Pager, subnets: seq<Subnet>, port: int)
    requires page.Valid() && !page.full && AllValid(subnets)
    modifies page
    ensures page.Valid() && page.emitted <= old(page.emitted) + AllHosts(subnets, port)
    ensures !page.full ==> page.emitted == old(page.emitted) + AllHosts(subnets, port)
  {
    var i := 0;
    while i < |subnets|
      invariant page.Valid() && !page.full && i <= |subnets|
      invariant page.emitted == old(page.emitted) + AllHosts(subnets[..i], port)
    {
      assert subnets[i] in subnets;
      ghost var n := page.WalkHosts(subnets[i], port);
      HostsStep(subnets, i, port, n, old(page.emitted), page.emitted);
      i := i + 1;
      if page.full {
        return;
      }
    }
    assert subnets[..i] == subnets;
  }

  lemma HostsStep(subnets: seq<Subnet>, i: nat, port: int, n: nat, before: seq<Target>, after: seq<Target>)
    requires AllValid(subnets) && i < |subnets| && subnets[i].Valid()
    requires HostsEmitted(subnets[i], port, before + AllHosts(subnets[..i], port), after, n)
    ensures after <= before + AllHosts(subnets, port)
    ensures n == |HostsOf(subnets[i], port)| ==> after == before + AllHosts(subnets[..i + 1], port)
  {
    assert subnets[..i + 1][..i] == subnets[..i];
    HostsExtend(subnets, i + 1, port);
    PartialStep(before, AllHosts(subnets[..i], port), HostsOf(subnets[i], port), n, AllHosts(subnets, port));
  }

  lemma PartialStep<T>(before: seq<T>, done: seq<T>, next: seq<T>, n: nat, whole: seq<T>)
    requires n <= |next| && done + next <= whole
    ensures before + done + next[..n] <= before + whole
    ensures n == |next| ==> before + done + next[..n] == before + (done + next)
  {
    var all := done + next;
    assert all[..|done| + n] == done + next[..n];
    assert whole[..|all|] == all;
  }

  lemma {:induction false} BroadcastsExtend(subnets: seq<Subnet>, n: nat, port: int)
    requires AllValid(subnets) && n <= |subnets|
    ensures AllBroadcasts(subnets[..n], port) <= AllBroadcasts(subnets, port)
    decreases |subnets| - n
  {
    if n == |subnets| {
      assert subnets[..n] == subnets;
    } else {
      BroadcastsExtend(subnets, n + 1, port);
      assert subnets[..n + 1][..n] == subnets[..n];
    }
  }

  lemma {:induction false} HostsExtend(subnets: seq<Subnet>, n: nat, port: int)
    requires AllValid(subnets) && n <= |subnets|
    ensures AllHosts(subnets[..n], port) <= AllHosts(subnets, port)
    decreases |subnets| - n
  {
    if n == |subnets| {
      assert subnets[..n] == subnets;
    } else {
      HostsExtend(subnets, n + 1, port);
      assert subnets[..n + 1][..n] == subnets[..n];
    }
  }

  // ---- what the list is ----

  /** The host targets of a subnet are its addresses but the network and broadcast ones, in order. */
  lemma HostsAreTheSubnet(s: Subnet, port: int, a: Ip4)
    requires s.Valid() && s.net.Some? && s.net.value.ones <= 30
    ensures (exists k :: 0 <= k < |HostsOf(s, port)| && HostsOf(s, port)[k].host == Value(a))
            <==> && s.net.value.Contains(a)
                 && Value(a) != s.net.value.Base()
                 && Value(a) != s.net.value.Base() + s.net.value.Size() - 1
  {
    var net, hosts := s.net.value, HostsOf(s, port);
    ContainsIsRange(net, a);
    PowAtLeast4(32 - net.ones);
    if net.Base() < Value(a) < net.Base() + net.Size() - 1 {
      assert hosts[Value(a) - net.Base() - 1].host == Value(a);
    }
  }

  /** The unicast list of a /0 network would be announced as empty. */
  ghost predicate HasDefaultRoute(subnets: seq<Subnet>) {
    exists s :: s in subnets && s.net.Some? && s.net.value.ones == 0
  }

  /** What a subnet contributes to the list, as opposed to what is announced for it. */
  function ListedOf(s: Subnet, mode: TargetMode): (n: nat) {
    if s.net.None? then 0
    else
      (if WantsBroadcast(mode) && Broadcastable(s.net.value.ones) then 1 else 0)
      + (if WantsUnicast(mode) then WalkCount(s.net.value.ones) else 0)
  }

  function Listed(subnets: seq<Subnet>, mode: TargetMode): (n: nat) {
    if subnets == [] then 0
    else Listed(subnets[..|subnets| - 1], mode) + ListedOf(subnets[|subnets| - 1], mode)
  }

  lemma {:induction false} ListedIsLength(subnets: seq<Subnet>, port: int, mode: TargetMode)
    requires AllValid(subnets)
    ensures Listed(subnets, mode) == (if WantsBroadcast(mode) then |AllBroadcasts(subnets, port)| else 0)
                                     + (if WantsUnicast(mode) then |AllHosts(subnets, port)| else 0)
  {
    if subnets != [] {
      ListedIsLength(subnets[..|subnets| - 1], port, mode);
    }
  }

  lemma {:induction false} RequestedIsListed(subnets: seq<Subnet>, mode: TargetMode)
    requires AllValid(subnets)
    ensures Requested(subnets, mode) <= Listed(subnets, mode)
    ensures Requested(subnets, mode) == Listed(subnets, mode)
            <==> !(WantsUnicast(mode) && HasDefaultRoute(subnets))
    ensures WantsUnicast(mode) && HasDefaultRoute(subnets) ==>
              Listed(subnets, mode) > Requested(subnets, mode) + MAX_MAX_TARGETS
  {
    if subnets != [] {
      var front, last := subnets[..|subnets| - 1], subnets[|subnets| - 1];
      assert subnets == front + [last] && last in subnets;
      RequestedIsListed(front, mode);
      WholeSpaceIsLarge();
    }
  }

  lemma WholeSpaceIsLarge()
    ensures WalkCount(0) > MAX_MAX_TARGETS
  {
    assert Pow2(10) == 1024;
    assert Pow2(20) == 1024 * Pow2(10);
    assert Pow2(30) == 1024 * Pow2(20);
  }

  /**
   The announced total is the length of the virtual list for every input but a
   unicast scan of a /0 network, which the interface filter never yields.
   */
  lemma RequestedIsLength(subnets: seq<Subnet>, port: int, mode: TargetMode)
    requires AllValid(subnets)
    ensures Requested(subnets, mode) == |VirtualList(subnets, port, mode)|
            <==> !(WantsUnicast(mode) && HasDefaultRoute(subnets))
  {
    RequestedIsListed(subnets, mode);
    ListedIsLength(subnets, port, mode);
  }

  // ---- from page to page ----

  /** The largest page a configuration may ask for. */
  const MAX_MAX_TARGETS: nat := 65536

  /** Page after page from the offset each call announced, for as long as it said there is more. */
  function Walk(list: seq<Target>, requested: nat, limit: nat, offset: nat): (all: seq<Target>)
    requires limit > 0 && requested <= |list|
    decreases requested - offset
  {
    var e := Expanded(list, requested, limit, offset);
    e.targets + if e.truncated then Walk(list, requested, limit, e.nextOffset) else []
  }

  /** Where that ends: at the first whole number of pages that covers what was announced. */
  function WalkEnd(requested: nat, limit: nat, offset: nat): (end: nat)
    requires limit > 0
    ensures end >= requested && end >= offset + limit && (offset < requested ==> end < requested + limit)
    decreases requested - offset
  {
    if requested <= offset + limit then offset + limit else WalkEnd(requested, limit, offset + limit)
  }

  function Between<T>(list: seq<T>, from: nat, to: nat): (part: seq<T>)
    requires from <= |list| && from <= to
  {
    if to < |list| then list[from..to] else list[from..]
  }

  lemma PageThenRest<T>(list: seq<T>, offset: nat, limit: nat, to: nat)
    requires offset + limit <= |list| && offset + limit <= to
    ensures Page(list, offset, limit) + Between(list, offset + limit, to) == Between(list, offset, to)
  {
  }

  lemma LastPage<T>(list: seq<T>, offset: nat, limit: nat)
    requires offset <= |list|
    ensures Page(list, offset, limit) == Between(list, offset, offset + limit)
  {
  }

  lemma ExpandedInside(list: seq<Target>, requested: nat, limit: nat, offset: nat)
    requires limit > 0 && requested <= |list|
    ensures var e := Expanded(list, requested, limit, offset);
            && e.targets == Page(list, offset, limit) && (e.truncated <==> offset + limit < requested)
            && (e.truncated ==> e.nextOffset == offset + limit)
  {
  }

  lemma LastStep(list: seq<Target>, requested: nat, limit: nat, offset: nat)
    requires limit > 0 && requested <= |list| && requested <= offset + limit
    ensures Walk(list, requested, limit, offset) == Page(list, offset, limit)
  {
    ExpandedInside(list, requested, limit, offset);
  }

  lemma NextStep(list: seq<Target>, requested: nat, limit: nat, offset: nat)
    requires limit > 0 && requested <= |list| && offset + limit < requested
    ensures Walk(list, requested, limit, offset) == Page(list, offset, limit) + Walk(list, requested, limit, offset + limit)
  {
    ExpandedInside(list, requested, limit, offset);
  }

  lemma {:induction false} WalkYields(list: seq<Target>, requested: nat, limit: nat, offset: nat, end: nat)
    requires limit > 0 && offset <= |list| && requested <= |list| && end == WalkEnd(requested, limit, offset)
    ensures Walk(list, requested, limit, offset) == Between(list, offset, end)
    decreases requested - offset
  {
    if offset + limit < requested {
      NextStep(list, requested, limit, offset);
      WalkYields(list, requested, limit, offset + limit, end);
      PageThenRest(list, offset, limit, end);
    } else {
      LastStep(list, requested, limit, offset);
      LastPage(list, offset, limit);
    }
  }

  /**
   Following the announced offsets from the start yields the whole list, once and in
   order, exactly when no /0 network is scanned host by host, for every page size the
   configuration allows.
   */
  lemma PagesCoverTheList(subnets: seq<Subnet>, port: int, limit: nat, mode: TargetMode)
    requires AllValid(subnets) && 0 < limit <= MAX_MAX_TARGETS
    ensures Requested(subnets, mode) <= |VirtualList(subnets, port, mode)|
    ensures Walk(VirtualList(subnets, port, mode), Requested(subnets, mode), limit, 0) == VirtualList(subnets, port, mode)
            <==> !(WantsUnicast(mode) && HasDefaultRoute(subnets))
  {
    var list := VirtualList(subnets, port, mode);
    RequestedIsListed(subnets, mode);
    ListedIsLength(subnets, port, mode);
    WalkYields(list, Requested(subnets, mode), limit, 0, WalkEnd(Requested(subnets, mode), limit, 0));
    assert list[0..] == list;
  }
}
