/**
 What is on the virtual list of targets (devicescan/targets.go), and in which order.
 */
module TargetList {

  import opened Wrappers
  import opened Collections
  import opened Ipv4
  import opened Targets

  /** t is the broadcast target of s: addressed to the last address of its subnet. */
  predicate IsBroadcastOf(t: Target, s: Subnet, port: int)
    requires s.net.Some? ==> s.net.value.ones <= 32
  {
    && s.net.Some? && 1 <= s.net.value.ones <= 30
    && t == Target(s.net.value.Base() + s.net.value.Size() - 1, port, s.localIP, s.cidr, true)
  }

  /** t is a host target of s: addressed to an address of its subnet but the first and the last. */
  predicate IsHostOf(t: Target, s: Subnet, port: int)
    requires s.net.Some? ==> s.net.value.ones <= 32
  {
    && s.net.Some? && s.net.value.ones <= 30
    && s.net.value.Base() < t.host < s.net.value.Base() + s.net.value.Size() - 1
    && t == Target(t.host, port, s.localIP, s.cidr, false)
  }

  lemma HostsOfExactly(s: Subnet, port: int, t: Target)
    requires s.Valid()
    ensures t in HostsOf(s, port) <==> IsHostOf(t, s, port)
  {
    if s.net.Some? && s.net.value.ones <= 30 {
      var net, hosts := s.net.value, HostsOf(s, port);
      PowAtLeast4(32 - net.ones);
      if IsHostOf(t, s, port) {
        assert hosts[t.host - net.Base() - 1] == t;
      }
    }
  }

  lemma {:induction false} AllHostsExactly(subnets: seq<Subnet>, port: int, t: Target)
    requires AllValid(subnets)
    ensures t in AllHosts(subnets, port) <==> exists s :: s in subnets && IsHostOf(t, s, port)
  {
    if subnets != [] {
      var front, last := subnets[..|subnets| - 1], subnets[|subnets| - 1];
      assert subnets == front + [last] && last in subnets;
      AllHostsExactly(front, port, t);
      HostsOfExactly(last, port, t);
    }
  }

  lemma {:induction false} AllBroadcastsExactly(subnets: seq<Subnet>, port: int, t: Target)
    requires AllValid(subnets)
    ensures t in AllBroadcasts(subnets, port) <==> exists s :: s in subnets && IsBroadcastOf(t, s, port)
  {
    if subnets != [] {
      var front, last := subnets[..|subnets| - 1], subnets[|subnets| - 1];
      assert subnets == front + [last] && last in subnets;
      AllBroadcastsExactly(front, port, t);
    }
  }

  /**
   What a scan of the subnets looks at: their broadcast addresses in the modes that
   broadcast, their hosts in those that do not only broadcast, and nothing else; and
   every broadcast comes before every host.
   */
  lemma ListExactly(subnets: seq<Subnet>, port: int, mode: TargetMode, t: Target)
    requires AllValid(subnets)
    ensures t in VirtualList(subnets, port, mode)
            <==> || ((mode == Broadcast || mode == Both) && exists s :: s in subnets && IsBroadcastOf(t, s, port))
                 || (mode != Broadcast && exists s :: s in subnets && IsHostOf(t, s, port))
    ensures var list := VirtualList(subnets, port, mode);
            forall i, j :: 0 <= i < j < |list| && list[j].broadcast ==> list[i].broadcast
  {
    AllBroadcastsExactly(subnets, port, t);
    AllHostsExactly(subnets, port, t);
    KindsApart(subnets, port);
  }

  lemma {:induction false} KindsApart(subnets: seq<Subnet>, port: int)
    requires AllValid(subnets)
    ensures forall i :: 0 <= i < |AllBroadcasts(subnets, port)| ==> AllBroadcasts(subnets, port)[i].broadcast
    ensures forall i :: 0 <= i < |AllHosts(subnets, port)| ==> !AllHosts(subnets, port)[i].broadcast
  {
    if subnets != [] {
      KindsApart(subnets[..|subnets| - 1], port);
    }
  }

  lemma OneMoreSubnet(front: seq<Subnet>, s: Subnet, port: int)
    requires AllValid(front) && s.Valid() && AllValid(front + [s])
    ensures AllHosts(front + [s], port) == AllHosts(front, port) + HostsOf(s, port)
    ensures AllBroadcasts(front + [s], port) == AllBroadcasts(front, port) + BroadcastsOf(s, port)
  {
    assert (front + [s])[..|front|] == front;
  }

  /** Within a kind the subnets come in their order, and each in one piece. */
  lemma {:induction false} SubnetsInOrder(x: seq<Subnet>, y: seq<Subnet>, port: int)
    requires AllValid(x) && AllValid(y) && AllValid(x + y)
    ensures AllHosts(x + y, port) == AllHosts(x, port) + AllHosts(y, port)
    ensures AllBroadcasts(x + y, port) == AllBroadcasts(x, port) + AllBroadcasts(y, port)
    decreases |y|
  {
    if y == [] {
      assert x + y == x;
    } else {
      var front, last := y[..|y| - 1], y[|y| - 1];
      assert y == front + [last] && x + y == (x + front) + [last] && last in y;
      assert forall s :: s in x + front ==> s in x + y;
      SubnetsInOrder(x, front, port);
      OneMoreSubnet(front, last, port);
      OneMoreSubnet(x + front, last, port);
      Associate(AllHosts(x, port), AllHosts(front, port), HostsOf(last, port));
      Associate(AllBroadcasts(x, port), AllBroadcasts(front, port), BroadcastsOf(last, port));
    }
  }
}
