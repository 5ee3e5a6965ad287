/**
 The runtime registries a plugin is written into (pluginhost/adapter_driver.go,
 pluginhost/upgrade.go): drivers by protocol name and type scopes, both refusing
 names that are taken.
 */
module PluginRegistry {

  datatype Protocol = Protocol(name: string, serialExclusive: bool, writable: bool)

  datatype TypeSig = TypeSig(kind: string, size: int)

  /** What a plugin describes itself as; `types` by lower-case name, `text` is everything not registered. */
  datatype Meta = Meta(scope: string, protocols: seq<Protocol>, types: map<string, TypeSig>,
                       typeMap: map<string, string>, text: string)

  /** `owner` names the plugin whose link the factory was made with. */
  datatype Driver = Driver(owner: string, serialExclusive: bool, writable: bool)

  datatype Scope = Scope(owner: string, names: set<string>, typeMap: map<string, string>)

  datatype Registry = Registry(drivers: map<string, Driver>, scopes: map<string, Scope>)

  function Names(protocols: seq<Protocol>): (names: set<string>)
    ensures forall p :: p in protocols ==> p.name in names
  {
    if protocols == [] then {}
    else Names(protocols[..|protocols| - 1]) + {protocols[|protocols| - 1].name}
  }

  ghost predicate Distinct(protocols: seq<Protocol>) {
    forall i, j :: 0 <= i < j < |protocols| ==> protocols[i].name != protocols[j].name
  }

  function DriverOf(p: Protocol, owner: string): Driver {
    Driver(owner, p.serialExclusive, p.writable)
  }

  /** The drivers of a plugin, by protocol name. */
  function Drivers(protocols: seq<Protocol>, owner: string): (drivers: map<string, Driver>)
    ensures drivers.Keys == Names(protocols)
  {
    if protocols == [] then map[]
    else
      var p := protocols[|protocols| - 1];
      Drivers(protocols[..|protocols| - 1], owner)[p.name := DriverOf(p, owner)]
  }

  predicate ScopeFree(reg: Registry, meta: Meta) {
    && meta.scope !in reg.scopes
    && forall s :: s in reg.scopes ==> reg.scopes[s].names !! Names(meta.protocols)
  }

  /** Nothing the plugin needs is taken. */
  predicate Free(reg: Registry, meta: Meta) {
    ScopeFree(reg, meta) && reg.drivers.Keys !! Names(meta.protocols)
  }

  function ScopeOf(meta: Meta, owner: string): Scope {
    Scope(owner, Names(meta.protocols), meta.typeMap)
  }

  function Added(reg: Registry, meta: Meta, owner: string): Registry {
    Registry(reg.drivers + Drivers(meta.protocols, owner), reg.scopes[meta.scope := ScopeOf(meta, owner)])
  }

  function Removed(reg: Registry, meta: Meta): Registry {
    Registry(reg.drivers - Names(meta.protocols), reg.scopes - {meta.scope})
  }

  /** The registries describe exactly this metadata of this plugin, besides what others own. */
  ghost predicate Describes(reg: Registry, meta: Meta, owner: string) {
    && reg.drivers == (reg.drivers - Names(meta.protocols)) + Drivers(meta.protocols, owner)
    && meta.scope in reg.scopes && reg.scopes[meta.scope] == ScopeOf(meta, owner)
  }

  /** No name of the plugin is claimed by anyone else's scope. */
  ghost predicate OwnNames(reg: Registry, meta: Meta) {
    forall s :: s in reg.scopes && s != meta.scope ==> reg.scopes[s].names !! Names(meta.protocols)
  }

  /** Taking out what is described frees exactly what putting it back needs, and puts it back as it was. */
  lemma RemovedThenAdded(reg: Registry, meta: Meta, owner: string)
    requires Describes(reg, meta, owner) && OwnNames(reg, meta)
    ensures Free(Removed(reg, meta), meta) && Added(Removed(reg, meta), meta, owner) == reg
  {
  }

  // ----- Registering the drivers one by one -----

  /** Protocol k is refused: someone else has the name, or the plugin itself names it twice. */
  predicate RefusedAt(drivers: map<string, Driver>, protocols: seq<Protocol>, k: nat)
    requires k < |protocols|
  {
    protocols[k].name in drivers || protocols[k].name in Names(protocols[..k])
  }

  predicate NoneRefused(drivers: map<string, Driver>, protocols: seq<Protocol>, n: nat)
    requires n <= |protocols|
  {
    forall k :: 0 <= k < n ==> !RefusedAt(drivers, protocols, k)
  }

  /** The first protocol that is refused; their number when none is. */
  function FirstRefused(drivers: map<string, Driver>, protocols: seq<Protocol>): (n: nat)
    ensures n <= |protocols| && NoneRefused(drivers, protocols, n)
    ensures n < |protocols| ==> RefusedAt(drivers, protocols, n)
  {
    FirstRefusedFrom(drivers, protocols, 0)
  }

  function FirstRefusedFrom(drivers: map<string, Driver>, protocols: seq<Protocol>, i: nat): (n: nat)
    requires i <= |protocols| && NoneRefused(drivers, protocols, i)
    ensures n <= |protocols| && NoneRefused(drivers, protocols, n)
    ensures n < |protocols| ==> RefusedAt(drivers, protocols, n)
    decreases |protocols| - i
  {
    if i == |protocols| || RefusedAt(drivers, protocols, i) then i else FirstRefusedFrom(drivers, protocols, i + 1)
  }

  lemma FirstIs(drivers: map<string, Driver>, protocols: seq<Protocol>, i: nat)
    requires i <= |protocols| && NoneRefused(drivers, protocols, i)
    requires i < |protocols| ==> RefusedAt(drivers, protocols, i)
    ensures FirstRefused(drivers, protocols) == i
  {
  }

  /** Where a name first occurs. */
  function First(protocols: seq<Protocol>, name: string): (n: nat)
    ensures n <= |protocols| && (n < |protocols| ==> protocols[n].name == name)
    ensures forall k :: 0 <= k < n ==> protocols[k].name != name
  {
    if protocols == [] || protocols[0].name == name then 0 else 1 + First(protocols[1..], name)
  }

  /** What the roll back leaves when protocol i is refused. */
  function RolledBack(drivers: map<string, Driver>, protocols: seq<Protocol>, i: nat, owner: string): map<string, Driver>
    requires i < |protocols|
  {
    (drivers + Drivers(protocols[..i], owner)) - Names(protocols[..First(protocols, protocols[i].name)])
  }

  lemma {:induction false} InNames(protocols: seq<Protocol>, name: string)
    ensures name in Names(protocols) <==> exists k :: 0 <= k < |protocols| && protocols[k].name == name
  {
    if protocols != [] {
      InNames(protocols[..|protocols| - 1], name);
    }
  }

  lemma {:induction false} FreshNames(drivers: map<string, Driver>, protocols: seq<Protocol>, n: nat)
    requires n <= |protocols| && NoneRefused(drivers, protocols, n)
    ensures drivers.Keys !! Names(protocols[..n])
  {
    if n > 0 {
      FreshNames(drivers, protocols, n - 1);
      assert protocols[..n][..n - 1] == protocols[..n - 1];
      assert !RefusedAt(drivers, protocols, n - 1);
    }
  }

  /** A refused registration leaves the drivers as they were exactly when the refused name is not one of its own. */
  lemma RefusalRestoresExactly(drivers: map<string, Driver>, protocols: seq<Protocol>, i: nat, owner: string)
    requires i < |protocols| && RefusedAt(drivers, protocols, i) && NoneRefused(drivers, protocols, i)
    ensures RolledBack(drivers, protocols, i, owner) == drivers <==> protocols[i].name !in Names(protocols[..i])
  {
    var name := protocols[i].name;
    var f := First(protocols, name);
    InNames(protocols[..i], name);
    FreshNames(drivers, protocols, i);
    if name in Names(protocols[..i]) {
      assert !RefusedAt(drivers, protocols, f);
      InNames(protocols[..f], name);
      assert name in RolledBack(drivers, protocols, i, owner);
    }
  }

  lemma OneMoreDriver(drivers: map<string, Driver>, protocols: seq<Protocol>, i: nat, owner: string)
    requires i < |protocols|
    ensures var p := protocols[i]; var soFar := drivers + Drivers(protocols[..i], owner);
            && (p.name in soFar <==> RefusedAt(drivers, protocols, i))
            && soFar[p.name := DriverOf(p, owner)] == drivers + Drivers(protocols[..i + 1], owner)
  {
    assert protocols[..i + 1][..i] == protocols[..i];
  }

  lemma {:induction false} DistinctIsFresh(protocols: seq<Protocol>, k: nat)
    requires Distinct(protocols) && k < |protocols|
    ensures protocols[k].name !in Names(protocols[..k])
  {
    InNames(protocols[..k], protocols[k].name);
  }

  /** All protocols are accepted exactly when nobody has their names and none is named twice. */
  lemma AllOrNothing(drivers: map<string, Driver>, protocols: seq<Protocol>)
    ensures FirstRefused(drivers, protocols) == |protocols|
            <==> drivers.Keys !! Names(protocols) && Distinct(protocols)
  {
    assert protocols[..|protocols|] == protocols;
    if FirstRefused(drivers, protocols) == |protocols| {
      FreshNames(drivers, protocols, |protocols|);
      forall i, j | 0 <= i < j < |protocols|
        ensures protocols[i].name != protocols[j].name
      {
        assert !RefusedAt(drivers, protocols, j);
        assert protocols[i] in protocols[..j];
      }
    } else if Distinct(protocols) {
      DistinctIsFresh(protocols, FirstRefused(drivers, protocols));
    }
  }

  // ----- Registering a plugin -----

  predicate Accepts(reg: Registry, meta: Meta) {
    ScopeFree(reg, meta) && FirstRefused(reg.drivers, meta.protocols) == |meta.protocols|
  }

  /** A plugin is accepted exactly when all it needs is free and it names no protocol twice. */
  lemma AcceptsExactly(reg: Registry, meta: Meta)
    ensures Accepts(reg, meta) <==> Free(reg, meta) && Distinct(meta.protocols)
  {
    AllOrNothing(reg.drivers, meta.protocols);
  }

  /** What an attempt to register leaves, accepted or not. */
  function Registered(reg: Registry, meta: Meta, owner: string): Registry {
    if !ScopeFree(reg, meta) then reg
    else
      var n := FirstRefused(reg.drivers, meta.protocols);
      if n == |meta.protocols| then Added(reg, meta, owner)
      else Registry(RolledBack(reg.drivers, meta.protocols, n, owner), reg.scopes)
  }

  /** A refusal would come from outside: the scope is taken, or the first refused name is not one of the plugin's own. */
  predicate RefusedCleanly(reg: Registry, meta: Meta) {
    !ScopeFree(reg, meta)
    || var n := FirstRefused(reg.drivers, meta.protocols);
       n == |meta.protocols| || meta.protocols[n].name !in Names(meta.protocols[..n])
  }

  lemma DistinctIsClean(reg: Registry, meta: Meta)
    requires Distinct(meta.protocols)
    ensures RefusedCleanly(reg, meta)
  {
    var n := FirstRefused(reg.drivers, meta.protocols);
    if n < |meta.protocols| {
      DistinctIsFresh(meta.protocols, n);
    }
  }

  /** A refused plugin leaves the registries as they were exactly when the refusal came from outside. */
  lemma RefusedLeavesNothing(reg: Registry, meta: Meta, owner: string)
    requires !Accepts(reg, meta)
    ensures Registered(reg, meta, owner) == reg <==> RefusedCleanly(reg, meta)
  {
    if ScopeFree(reg, meta) {
      RefusalRestoresExactly(reg.drivers, meta.protocols, FirstRefused(reg.drivers, meta.protocols), owner);
    }
  }

  /** The registries after an upgrade that has to register anew: out with the old, in with the new, or back. */
  function Reregistered(reg: Registry, prior: Meta, next: Meta, owner: string): Registry {
    var without := Removed(reg, prior);
    if Accepts(without, next) then Added(without, next, owner)
    else Registered(Registered(without, next, owner), prior, owner)
  }

  lemma {:induction false} OwnedDrivers(protocols: seq<Protocol>, owner: string, name: string)
    requires name in Names(protocols)
    ensures Drivers(protocols, owner)[name].owner == owner
  {
    var n := |protocols| - 1;
    if protocols[n].name != name {
      OwnedDrivers(protocols[..n], owner, name);
    }
  }

  /** What a refused plugin can leave behind is its own. */
  lemma RefusedAddsOnly(reg: Registry, meta: Meta, owner: string)
    requires !Accepts(reg, meta)
    ensures var t := Registered(reg, meta, owner);
            && t.scopes == reg.scopes && reg.drivers.Keys <= t.drivers.Keys
            && (forall name :: name in reg.drivers ==> t.drivers[name] == reg.drivers[name])
            && (forall name :: name in t.drivers && name !in reg.drivers ==> t.drivers[name].owner == owner)
  {
    if ScopeFree(reg, meta) {
      var n := FirstRefused(reg.drivers, meta.protocols);
      forall name | name in Names(meta.protocols[..n])
        ensures Drivers(meta.protocols[..n], owner)[name].owner == owner
      {
        OwnedDrivers(meta.protocols[..n], owner, name);
      }
      FreshNames(reg.drivers, meta.protocols, n);
      var f := First(meta.protocols, meta.protocols[n].name);
      assert f <= n;
      FreshNames(reg.drivers, meta.protocols, f);
    }
  }

  /**
   A refused upgrade leaves the registries exactly as before if and only if the
   refusal came from outside and the old metadata names no protocol twice: otherwise
   something of the new version stays behind, or the old one cannot be put back.
   */
  lemma RollBackExactly(reg: Registry, prior: Meta, next: Meta, owner: string)
    requires Describes(reg, prior, owner) && OwnNames(reg, prior)
    requires !Accepts(Removed(reg, prior), next)
    ensures Reregistered(reg, prior, next, owner) == reg
            <==> RefusedCleanly(Removed(reg, prior), next) && Distinct(prior.protocols)
  {
    var without := Removed(reg, prior);
    var left := Registered(without, next, owner);
    RemovedThenAdded(reg, prior, owner);
    RefusedLeavesNothing(without, next, owner);
    RefusedAddsOnly(without, next, owner);
    AcceptsExactly(left, prior);
    if Accepts(left, prior) {
      assert left != without ==> exists name :: name in left.drivers && name !in without.drivers;
    } else {
      RefusedAddsOnly(left, prior, owner);
      assert prior.scope !in left.scopes;
    }
  }

  class Registries {
    var drivers: map<string, Driver>
    var scopes: map<string, Scope>

    function Now(): Registry
      reads this
    {
      Registry(drivers, scopes)
    }

    method RegisterExternal(name: string, d: Driver) returns (ok: bool)
      modifies this`drivers
      ensures ok <==> name !in old(drivers)
      ensures drivers == if ok then old(drivers)[name := d] else old(drivers)
    {
      ok := name !in drivers;
      if ok {
        drivers := drivers[name := d];
      }
    }

    /** The names are taken out again up to where the refused one first occurs. */
    method RollBack(protocols: seq<Protocol>, refused: string)
      modifies this`drivers
      ensures drivers == old(drivers) - Names(protocols[..First(protocols, refused)])
    {
      var n := 0;
      while n < |protocols| && protocols[n].name != refused
        invariant 0 <= n <= First(protocols, refused)
        invariant drivers == old(drivers) - Names(protocols[..n])
      {
        assert protocols[..n + 1][..n] == protocols[..n];
        drivers := drivers - {protocols[n].name};
        n := n + 1;
      }
    }

    method RegisterDrivers(protocols: seq<Protocol>, owner: string) returns (ok: bool)
      modifies this`drivers
      ensures var at := FirstRefused(old(drivers), protocols);
              && (ok <==> at == |protocols|)
              && drivers == if ok then old(drivers) + Drivers(protocols, owner)
                            else RolledBack(old(drivers), protocols, at, owner)
    {
      for i := 0 to |protocols|
        invariant drivers == old(drivers) + Drivers(protocols[..i], owner)
        invariant NoneRefused(old(drivers), protocols, i)
      {
        OneMoreDriver(old(drivers), protocols, i, owner);
        var accepted := RegisterExternal(protocols[i].name, DriverOf(protocols[i], owner));
        if !accepted {
          FirstIs(old(drivers), protocols, i);
          RollBack(protocols, protocols[i].name);
          return false;
        }
      }
      assert protocols[..|protocols|] == protocols;
      FirstIs(old(drivers), protocols, |protocols|);
      return true;
    }

    /** Scope first, then the drivers. */
    method Register(meta: Meta, owner: string) returns (ok: bool)
      modifies this
      ensures ok <==> Accepts(old(Now()), meta)
      ensures Now() == Registered(old(Now()), meta, owner)
    {
      if !ScopeFree(Now(), meta) {
        return false;
      }
      var before := scopes;
      scopes := scopes[meta.scope := ScopeOf(meta, owner)];
      ok := RegisterDrivers(meta.protocols, owner);
      if !ok {
        scopes := scopes - {meta.scope};
        assert scopes == before;
      }
    }

    method Unregister(meta: Meta)
      modifies this
      ensures Now() == Removed(old(Now()), meta)
    {
      for i := 0 to |meta.protocols|
        invariant drivers == old(drivers) - Names(meta.protocols[..i]) && scopes == old(scopes)
      {
        assert meta.protocols[..i + 1][..i] == meta.protocols[..i];
        drivers := drivers - {meta.protocols[i].name};
      }
      assert meta.protocols[..|meta.protocols|] == meta.protocols;
      scopes := scopes - {meta.scope};
    }

    /** The registry half of a hot upgrade. */
    method Reregister(prior: Meta, next: Meta, owner: string) returns (ok: bool)
      modifies this
      ensures ok <==> Accepts(Removed(old(Now()), prior), next)
      ensures Now() == Reregistered(old(Now()), prior, next, owner)
      ensures !ok && Describes(old(Now()), prior, owner) && OwnNames(old(Now()), prior) ==>
                (Now() == old(Now()) <==> RefusedCleanly(Removed(old(Now()), prior), next) && Distinct(prior.protocols))
    {
      ghost var before := Now();
      Unregister(prior);
      ok := Register(next, owner);
      if !ok {
        var restored := Register(prior, owner);
        if Describes(before, prior, owner) && OwnNames(before, prior) {
          RollBackExactly(before, prior, next, owner);
        }
      }
    }
  }
}
