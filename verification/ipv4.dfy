/**
 IPv4 arithmetic on bytes, as devicescan/targets.go does it: address increment
 with carry, subnet membership by mask, broadcast address by complement.
 Each is tied to the 32-bit number the four bytes spell.
 */
module Ipv4 {

  type Byte = b: int | 0 <= b < 256
  type Ip4 = s: seq<Byte> | |s| == 4 witness [0, 0, 0, 0]

  const SPACE: nat := 0x1_0000_0000

  function Value(ip: Ip4): (v: nat)
    ensures v < SPACE
  {
    var n0: int, n1: int, n2: int, n3: int := ip[0], ip[1], ip[2], ip[3];
    n0 * 0x100_0000 + n1 * 0x1_0000 + n2 * 0x100 + n3
  }

  lemma ValueInjective(a: Ip4, b: Ip4)
    requires Value(a) == Value(b)
    ensures a == b
  {
    assert a[0] == b[0] && a[1] == b[1] && a[2] == b[2] && a[3] == b[3];
  }

  // ---- increment ----

  /** A byte increment wraps. */
  function Bump(b: Byte): (c: Byte) {
    if b == 255 then 0 else b + 1
  }

  /** Increment the bytes up to index i, carrying to the left. */
  function Carry(ip: Ip4, i: int): (out: Ip4)
    requires -1 <= i < 4
    decreases i + 1
  {
    if i < 0 then ip
    else if Bump(ip[i]) != 0 then ip[i := Bump(ip[i])]
    else Carry(ip[i := 0], i - 1)
  }

  lemma CarryAddsOne(ip: Ip4)
    ensures Value(Carry(ip, 3)) == (Value(ip) + 1) % SPACE
  {
    if ip[3] == 255 {
      var a := ip[3 := 0];
      if a[2] == 255 {
        var b := a[2 := 0];
        if b[1] == 255 {
          var c := b[1 := 0];
          assert Carry(c, 0) == if c[0] == 255 then Carry(c[0 := 0], -1) else c[0 := c[0] + 1];
        }
      }
    }
  }

  /** The next address, wrapping after 255.255.255.255. */
  method NextIP(ip: Ip4) returns (out: Ip4)
    ensures Value(out) == (Value(ip) + 1) % SPACE
  {
    CarryAddsOne(ip);
    var bytes: array<Byte> := new Byte[4](i requires 0 <= i < 4 => ip[i]);
    assert bytes[..] == ip;
    var i := 3;
    while i >= 0
      invariant -1 <= i < 4
      invariant Carry(bytes[..], i) == Carry(ip, 3)
    {
      ghost var before := bytes[..];
      bytes[i] := Bump(bytes[i]);
      assert bytes[..] == before[i := Bump(before[i])];
      if bytes[i] != 0 {
        return bytes[..];
      }
      i := i - 1;
    }
    return bytes[..];
  }

  // ---- networks ----

  function Pow2(n: nat): (p: nat)
    ensures p > 0
  {
    if n == 0 then 1 else 2 * Pow2(n - 1)
  }

  /** The mask bits that fall into byte i of a /ones network. */
  function BitsIn(ones: nat, i: nat): (k: nat)
    ensures k <= 8
  {
    if ones <= 8 * i then 0 else if ones >= 8 * i + 8 then 8 else ones - 8 * i
  }

  /** How many values the free bits of a byte take. */
  function Room(k: nat): (f: nat)
    requires k <= 8
    ensures f > 0
  {
    if k == 0 then 256 else if k == 1 then 128 else if k == 2 then 64 else if k == 3 then 32
    else if k == 4 then 16 else if k == 5 then 8 else if k == 6 then 4 else if k == 7 then 2 else 1
  }

  /** A byte with its free bits cleared, and with them set. */
  function Cleared(b: Byte, k: nat): (c: Byte)
    requires k <= 8
  {
    b - b % Room(k)
  }

  function Filled(b: Byte, k: nat): (c: Byte)
    requires k <= 8
  {
    Cleared(b, k) + Room(k) - 1
  }

  function Mask(k: nat): (m: bv8)
    requires k <= 8
  {
    (0xFF as bv8) << ((8 - k) as bv4)
  }

  /** Clearing and filling a byte are the source's `b & mask` and `b | ^mask`. */
  lemma MaskingIsBitwise(b: bv8, k: nat)
    requires k <= 8
    ensures (b & Mask(k)) as int == b as int - b as int % Room(k)
    ensures (b | !Mask(k)) as int == b as int - b as int % Room(k) + Room(k) - 1
  {
    var q, r := MaskParts(b, k);
    MaskFills(b, k);
    ModUnique(q, Room(k), r);
  }

  lemma MaskParts(b: bv8, k: nat) returns (q: int, r: int)
    requires k <= 8
    ensures 0 <= r < Room(k) && b as int == q * Room(k) + r
    ensures (b & Mask(k)) as int == q * Room(k)
  {
    q, r := (b >> ((8 - k) as bv4)) as int, (b & !Mask(k)) as int;
    MaskQuotient(b, k);
    MaskSplits(b, k);
  }

  lemma MaskQuotient(b: bv8, k: nat)
    requires k <= 8
    ensures (b & Mask(k)) as int == (b >> ((8 - k) as bv4)) as int * Room(k)
  {
  }

  lemma MaskSplits(b: bv8, k: nat)
    requires k <= 8
    ensures b as int == (b & Mask(k)) as int + (b & !Mask(k)) as int
  {
  }

  lemma MaskFills(b: bv8, k: nat)
    requires k <= 8
    ensures (b | !Mask(k)) as int == (b & Mask(k)) as int + Room(k) - 1
  {
  }

  lemma ModUnique(q: int, m: int, r: int)
    requires 0 <= r < m
    ensures (q * m + r) % m == r
  {
    var x := q * m + r;
    var d := q - x / m;
    assert d * m == x % m - r;
    if d >= 1 {
      MulMonotone(1, d, m);
    } else if d <= -1 {
      MulMonotone(d, -1, m);
    }
  }

  lemma MulMonotone(a: int, b: int, m: int)
    requires a <= b && m > 0
    ensures a * m <= b * m
  {
    assert (b - a) * m >= 0;
  }

  /** A parsed CIDR: the masked network address and the prefix length. */
  datatype Network = Network(ip: Ip4, ones: nat)
  {
    ghost predicate Valid() {
      ones <= 32 && forall i :: 0 <= i < 4 ==> Cleared(ip[i], BitsIn(ones, i)) == ip[i]
    }

    predicate Contains(a: Ip4) {
      forall i :: 0 <= i < 4 ==> Cleared(a[i], BitsIn(ones, i)) == ip[i]
    }

    function Base(): (v: nat) {
      Value(ip)
    }

    /** How many addresses the prefix leaves open. */
    function Size(): (n: nat)
      requires ones <= 32
    {
      Pow2(32 - ones)
    }
  }

  function HostMax(ones: nat): (v: nat)
    requires ones <= 32
  {
    (Room(BitsIn(ones, 0)) - 1) * 0x100_0000 + (Room(BitsIn(ones, 1)) - 1) * 0x1_0000
    + (Room(BitsIn(ones, 2)) - 1) * 0x100 + (Room(BitsIn(ones, 3)) - 1)
  }

  lemma {:induction false} HostMaxIsSize(ones: nat)
    requires ones <= 32
    ensures HostMax(ones) == Pow2(32 - ones) - 1
    decreases 32 - ones
  {
    if ones < 32 {
      HostMaxIsSize(ones + 1);
      assert Pow2(32 - ones) == 2 * Pow2(31 - ones);
      if ones < 8 {
        assert BitsIn(ones + 1, 1) == BitsIn(ones + 1, 2) == BitsIn(ones + 1, 3) == 0;
      } else if ones < 16 {
        assert BitsIn(ones, 0) == 8 && BitsIn(ones + 1, 2) == BitsIn(ones + 1, 3) == 0;
      } else if ones < 24 {
        assert BitsIn(ones, 0) == BitsIn(ones, 1) == 8 && BitsIn(ones + 1, 3) == 0;
      } else {
        assert BitsIn(ones, 0) == BitsIn(ones, 1) == BitsIn(ones, 2) == 8;
      }
    }
  }

  ghost predicate Within(n: int, a: int, k: nat)
    requires k <= 8
  {
    n <= a < n + Room(k)
  }

  lemma MultipleFits(n: int, m: int, c: int)
    requires 0 <= n < c * m && m > 0 && n % m == 0
    ensures n + m <= c * m
  {
    var q := n / m;
    assert n == q * m;
    if c <= q {
      MulMonotone(c, q, m);
    } else {
      MulMonotone(q + 1, c, m);
    }
  }

  lemma ClearedIsWithin(a: Byte, n: Byte, k: nat)
    requires k <= 8 && Cleared(n, k) == n
    ensures Cleared(a, k) == n <==> Within(n, a, k)
    ensures n + Room(k) <= 256
  {
    RoundsDownTo(a, n, Room(k));
    MultipleFits(n, Room(k), 256 / Room(k));
  }

  lemma RoundsDownTo(a: int, n: int, m: int)
    requires m > 0 && n % m == 0
    ensures a - a % m == n <==> n <= a < n + m
  {
    if n <= a < n + m {
      ModUnique(n / m, m, a - n);
    }
  }

  /** Membership by mask is membership in a range of 2^(32-prefix) numbers. */
  lemma ContainsIsRange(net: Network, a: Ip4)
    requires net.Valid()
    ensures net.Contains(a) <==> net.Base() <= Value(a) < net.Base() + net.Size()
  {
    ContainsByBytes(net, a);
    WithinIsRange(net, a);
  }

  ghost predicate AllWithin(net: Network, a: Ip4) {
    forall i :: 0 <= i < 4 ==> Within(net.ip[i], a[i], BitsIn(net.ones, i))
  }

  lemma WithinIsRange(net: Network, a: Ip4)
    requires net.ones <= 32 && forall i :: 0 <= i < 4 ==> net.ip[i] + Room(BitsIn(net.ones, i)) <= 256
    ensures AllWithin(net, a) <==> net.Base() <= Value(a) < net.Base() + net.Size()
  {
    HostMaxIsSize(net.ones);
    RangeByBytes(net.ones, net.ip[0], net.ip[1], net.ip[2], net.ip[3], a[0], a[1], a[2], a[3]);
    assert AllWithin(net, a)
      <==> && Within(net.ip[0], a[0], BitsIn(net.ones, 0)) && Within(net.ip[1], a[1], BitsIn(net.ones, 1))
           && Within(net.ip[2], a[2], BitsIn(net.ones, 2)) && Within(net.ip[3], a[3], BitsIn(net.ones, 3));
  }

  lemma ContainsByBytes(net: Network, a: Ip4)
    requires net.Valid()
    ensures net.Contains(a) <==> AllWithin(net, a)
    ensures forall i :: 0 <= i < 4 ==> net.ip[i] + Room(BitsIn(net.ones, i)) <= 256
  {
    forall i | 0 <= i < 4
      ensures Cleared(a[i], BitsIn(net.ones, i)) == net.ip[i] <==> Within(net.ip[i], a[i], BitsIn(net.ones, i))
      ensures net.ip[i] + Room(BitsIn(net.ones, i)) <= 256
    {
      ClearedIsWithin(a[i], net.ip[i], BitsIn(net.ones, i));
    }
  }

  /** The range stays inside the 32-bit space: its last number is four filled bytes. */
  lemma RangeFits(net: Network)
    requires net.Valid()
    ensures net.Base() + net.Size() <= SPACE
  {
    HostMaxIsSize(net.ones);
    ContainsByBytes(net, net.ip);
  }

  /** Byte by byte within the free bits, exactly when within the range as a number. */
  lemma RangeByBytes(ones: nat, n0: int, n1: int, n2: int, n3: int, a0: int, a1: int, a2: int, a3: int)
    requires ones <= 32
    requires 0 <= a0 < 256 && 0 <= a1 < 256 && 0 <= a2 < 256 && 0 <= a3 < 256
    requires 0 <= n0 <= 256 - Room(BitsIn(ones, 0)) && 0 <= n1 <= 256 - Room(BitsIn(ones, 1))
    requires 0 <= n2 <= 256 - Room(BitsIn(ones, 2)) && 0 <= n3 <= 256 - Room(BitsIn(ones, 3))
    ensures var n := n0 * 0x100_0000 + n1 * 0x1_0000 + n2 * 0x100 + n3;
            var a := a0 * 0x100_0000 + a1 * 0x1_0000 + a2 * 0x100 + a3;
            (&& Within(n0, a0, BitsIn(ones, 0)) && Within(n1, a1, BitsIn(ones, 1))
             && Within(n2, a2, BitsIn(ones, 2)) && Within(n3, a3, BitsIn(ones, 3)))
            <==> n <= a <= n + HostMax(ones)
  {
    if ones < 8 {
      assert BitsIn(ones, 1) == BitsIn(ones, 2) == BitsIn(ones, 3) == 0;
    } else if ones < 16 {
      assert BitsIn(ones, 0) == 8 && BitsIn(ones, 2) == BitsIn(ones, 3) == 0;
    } else if ones < 24 {
      assert BitsIn(ones, 0) == BitsIn(ones, 1) == 8 && BitsIn(ones, 3) == 0;
    } else {
      assert BitsIn(ones, 0) == BitsIn(ones, 1) == BitsIn(ones, 2) == 8;
    }
  }

  /** The subnet broadcast address: host bits all set, i.e. the last number of the range. */
  method BroadcastOf(net: Network) returns (out: Ip4)
    requires net.Valid()
    ensures Value(out) == net.Base() + net.Size() - 1
  {
    var bytes: array<Byte> := new Byte[4](_ => 0);
    for i := 0 to 4
      invariant forall j :: 0 <= j < i ==> bytes[j] == Filled(net.ip[j], BitsIn(net.ones, j))
    {
      bytes[i] := Filled(net.ip[i], BitsIn(net.ones, i));
    }
    out := bytes[..];
    FilledIsLast(net, out);
  }

  lemma FilledIsLast(net: Network, out: Ip4)
    requires net.Valid()
    requires forall i :: 0 <= i < 4 ==> out[i] == Filled(net.ip[i], BitsIn(net.ones, i))
    ensures Value(out) == net.Base() + net.Size() - 1
  {
    HostMaxIsSize(net.ones);
    assert out[0] == net.ip[0] + Room(BitsIn(net.ones, 0)) - 1;
    assert out[1] == net.ip[1] + Room(BitsIn(net.ones, 1)) - 1;
    assert out[2] == net.ip[2] + Room(BitsIn(net.ones, 2)) - 1;
    assert out[3] == net.ip[3] + Room(BitsIn(net.ones, 3)) - 1;
  }
}
