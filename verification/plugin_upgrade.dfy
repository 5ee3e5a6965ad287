/**
 What a new version of a plugin changes (pluginhost/upgrade.go): the registration
 fingerprint that decides whether the registries are touched, and the part of it
 that forces the collection task to be rebuilt.
 */
module PluginUpgrade {

  import opened Collections
  import opened PluginRegistry

  datatype ProtocolSig = ProtocolSig(serialExclusive: bool, writable: bool)

  datatype Signature = Signature(scope: string, protocols: map<string, ProtocolSig>, types: map<string, TypeSig>,
                                 typeMap: map<string, string>)

  function SigOf(p: Protocol): ProtocolSig {
    ProtocolSig(p.serialExclusive, p.writable)
  }

  function ProtocolSigs(protocols: seq<Protocol>): (sigs: map<string, ProtocolSig>)
    ensures sigs.Keys == Names(protocols)
  {
    if protocols == [] then map[]
    else ProtocolSigs(protocols[..|protocols| - 1])[protocols[|protocols| - 1].name := SigOf(protocols[|protocols| - 1])]
  }

  function SignatureOf(meta: Meta): Signature {
    Signature(meta.scope, ProtocolSigs(meta.protocols), meta.types, meta.typeMap)
  }

  lemma {:induction false} DriversBySig(protocols: seq<Protocol>, owner: string, name: string)
    requires name in Names(protocols)
    ensures var sig := ProtocolSigs(protocols)[name];
            Drivers(protocols, owner)[name] == Driver(owner, sig.serialExclusive, sig.writable)
  {
    var n := |protocols| - 1;
    if name != protocols[n].name {
      DriversBySig(protocols[..n], owner, name);
    }
  }

  /** Fingerprints are equal exactly when scope, types and type map are, and the same drivers would be registered. */
  lemma FingerprintExactly(a: Meta, b: Meta, owner: string)
    ensures SignatureOf(a) == SignatureOf(b)
            <==> && a.scope == b.scope && a.types == b.types && a.typeMap == b.typeMap
                 && Drivers(a.protocols, owner) == Drivers(b.protocols, owner)
  {
    forall name | name in Names(a.protocols)
      ensures var sig := ProtocolSigs(a.protocols)[name];
              Drivers(a.protocols, owner)[name] == Driver(owner, sig.serialExclusive, sig.writable)
    {
      DriversBySig(a.protocols, owner, name);
    }
    forall name | name in Names(b.protocols)
      ensures var sig := ProtocolSigs(b.protocols)[name];
              Drivers(b.protocols, owner)[name] == Driver(owner, sig.serialExclusive, sig.writable)
    {
      DriversBySig(b.protocols, owner, name);
    }
    if Drivers(a.protocols, owner) == Drivers(b.protocols, owner) {
      assert ProtocolSigs(a.protocols).Keys == ProtocolSigs(b.protocols).Keys;
      assert ProtocolSigs(a.protocols) == ProtocolSigs(b.protocols);
    }
    if ProtocolSigs(a.protocols) == ProtocolSigs(b.protocols) {
      assert Names(a.protocols) == Names(b.protocols);
      assert Drivers(a.protocols, owner) == Drivers(b.protocols, owner);
    }
  }

  /** Equal fingerprints register the same things: leaving the registries alone leaves them describing the new version. */
  lemma SameSignatureDescribes(reg: Registry, prior: Meta, next: Meta, owner: string)
    requires Describes(reg, prior, owner) && SignatureOf(prior) == SignatureOf(next)
    ensures Describes(reg, next, owner) && Removed(reg, prior) == Removed(reg, next)
  {
    assert Names(prior.protocols) == Names(next.protocols);
    forall name | name in Names(prior.protocols)
      ensures Drivers(prior.protocols, owner)[name] == Drivers(next.protocols, owner)[name]
    {
      DriversBySig(prior.protocols, owner, name);
      DriversBySig(next.protocols, owner, name);
    }
    assert Drivers(prior.protocols, owner) == Drivers(next.protocols, owner);
  }

  /**
   A version that repeats a protocol name under an unchanged fingerprint is taken
   over without being registered.  From then on no refused upgrade can be undone.
   */
  lemma RepeatedNameSpoilsRollBack(reg: Registry, prior: Meta, next: Meta, third: Meta, owner: string)
    requires Describes(reg, prior, owner) && OwnNames(reg, prior)
    requires SignatureOf(prior) == SignatureOf(next) && !Accepts(Removed(reg, next), third)
    ensures Reregistered(reg, next, third, owner) == reg
            <==> RefusedCleanly(Removed(reg, next), third) && Distinct(next.protocols)
  {
    SameSignatureDescribes(reg, prior, next, owner);
    assert Names(prior.protocols) == Names(next.protocols);
    RollBackExactly(reg, next, third, owner);
  }

  /** The comparison by size and one-sided lookup is equality. */
  method SameMap<K(==), V(==)>(a: map<K, V>, b: map<K, V>) returns (same: bool)
    ensures same <==> a == b
  {
    if |a| != |b| {
      return false;
    }
    var keys := a.Keys;
    while keys != {}
      invariant keys <= a.Keys
      invariant forall k :: k in a && k !in keys ==> k in b && b[k] == a[k]
      decreases |keys|
    {
      var k :| k in keys;
      if k !in b || b[k] != a[k] {
        return false;
      }
      keys := keys - {k};
    }
    assert a.Keys <= b.Keys;
    SameSizeSubset(a.Keys, b.Keys);
    return true;
  }

  method SameSignature(a: Signature, b: Signature) returns (same: bool)
    ensures same <==> a == b
  {
    if a.scope != b.scope {
      return false;
    }
    same := SameMap(a.protocols, b.protocols);
    if same {
      same := SameMap(a.types, b.types);
    }
    if same {
      same := SameMap(a.typeMap, b.typeMap);
    }
  }

  // ----- Rebuilding the task -----

  lemma {:induction false} DistinctCount(protocols: seq<Protocol>)
    requires Distinct(protocols)
    ensures |Names(protocols)| == |protocols|
  {
    if protocols != [] {
      var n := |protocols| - 1;
      DistinctCount(protocols[..n]);
      DistinctIsFresh(protocols, n);
    }
  }

  lemma {:induction false} SigAt(protocols: seq<Protocol>, k: nat)
    requires Distinct(protocols) && k < |protocols|
    ensures protocols[k].name in ProtocolSigs(protocols)
    ensures ProtocolSigs(protocols)[protocols[k].name] == SigOf(protocols[k])
  {
    var n := |protocols| - 1;
    if k < n {
      SigAt(protocols[..n], k);
      assert protocols[k].name != protocols[n].name;
    }
  }

  /** What the comparison has established: as many protocols, and each new one was there as it is now. */
  predicate Matches(prior: seq<Protocol>, next: seq<Protocol>) {
    && |prior| == |next|
    && forall k :: 0 <= k < |next| ==>
         next[k].name in ProtocolSigs(prior) && ProtocolSigs(prior)[next[k].name] == SigOf(next[k])
  }

  method NeedsTaskRebuild(prior: Meta, next: Meta) returns (rebuild: bool)
    ensures rebuild <==> !Matches(prior.protocols, next.protocols)
  {
    if |prior.protocols| != |next.protocols| {
      return true;
    }
    var sigs := ProtocolSigs(prior.protocols);
    for i := 0 to |next.protocols|
      invariant forall k :: 0 <= k < i ==> next.protocols[k].name in sigs && sigs[next.protocols[k].name] == SigOf(next.protocols[k])
    {
      var p := next.protocols[i];
      if p.name !in sigs || sigs[p.name] != SigOf(p) {
        return true;
      }
    }
    return false;
  }

  /** Where a name is given more than once, it is given with the same capabilities. */
  ghost predicate SelfConsistent(protocols: seq<Protocol>) {
    forall k :: 0 <= k < |protocols| ==>
      protocols[k].name in ProtocolSigs(protocols) && ProtocolSigs(protocols)[protocols[k].name] == SigOf(protocols[k])
  }

  /** The comparison is reached: the fingerprint is unchanged, or the new version has just been registered. */
  predicate ReachesComparison(reg: Registry, prior: Meta, next: Meta) {
    SignatureOf(prior) == SignatureOf(next) || Accepts(Removed(reg, prior), next)
  }

  /**
   Whenever an upgrade gets as far as the comparison, whatever names the metadata
   repeat, no change is missed: the task is rebuilt when the set of protocols, or
   what any of them makes the drivers implement, has changed.  Beyond that it is
   rebuilt without need exactly when as many entries no longer make up the same
   protocols, or the new metadata contradict themselves.
   */
  lemma RebuildExactly(reg: Registry, prior: Meta, next: Meta)
    requires ReachesComparison(reg, prior, next)
    ensures !Matches(prior.protocols, next.protocols)
            <==> || ProtocolSigs(prior.protocols) != ProtocolSigs(next.protocols)
                 || |prior.protocols| != |next.protocols|
                 || !SelfConsistent(next.protocols)
  {
    AcceptsExactly(Removed(reg, prior), next);
    if Matches(prior.protocols, next.protocols) && Distinct(next.protocols) {
      AllMatch(prior.protocols, next.protocols);
    }
  }

  /** With every name given once the task is rebuilt exactly for a change, and never without the fingerprint differing. */
  lemma RebuildForChangeOnly(prior: Meta, next: Meta)
    requires Distinct(prior.protocols) && Distinct(next.protocols)
    ensures !Matches(prior.protocols, next.protocols) <==> ProtocolSigs(prior.protocols) != ProtocolSigs(next.protocols)
    ensures !Matches(prior.protocols, next.protocols) ==> SignatureOf(prior) != SignatureOf(next)
  {
    if Matches(prior.protocols, next.protocols) {
      AllMatch(prior.protocols, next.protocols);
    } else if ProtocolSigs(prior.protocols) == ProtocolSigs(next.protocols) {
      DistinctCount(prior.protocols);
      DistinctCount(next.protocols);
      forall k | 0 <= k < |next.protocols|
        ensures next.protocols[k].name in ProtocolSigs(next.protocols)
        ensures ProtocolSigs(next.protocols)[next.protocols[k].name] == SigOf(next.protocols[k])
      {
        SigAt(next.protocols, k);
      }
    }
  }

  lemma {:induction false} NamesAtMost(protocols: seq<Protocol>)
    ensures |Names(protocols)| <= |protocols|
  {
    if protocols != [] {
      NamesAtMost(protocols[..|protocols| - 1]);
    }
  }

  lemma AllMatch(prior: seq<Protocol>, next: seq<Protocol>)
    requires Distinct(next) && Matches(prior, next)
    ensures ProtocolSigs(prior) == ProtocolSigs(next)
  {
    forall name | name in Names(next)
      ensures name in ProtocolSigs(prior) && ProtocolSigs(prior)[name] == ProtocolSigs(next)[name]
    {
      InNames(next, name);
      var k :| 0 <= k < |next| && next[k].name == name;
      SigAt(next, k);
    }
    DistinctCount(next);
    NamesAtMost(prior);
    SubsetSize(Names(next), Names(prior));
    SameSizeSubset(Names(next), Names(prior));
  }
}
