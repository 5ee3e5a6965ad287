/**
 The directory scan (pluginhost/manager.go): load what is new, hot-upgrade what was
 replaced, suppress what has failed, unload what is gone.
 */
module PluginScan {

  import opened Wrappers
  import opened PluginRegistry
  import opened PluginUpgrade

  /** A file as this scan finds it; a binary that does not come up describes nothing. */
  datatype File = File(path: string, fp: nat, sha: string, meta: Option<Meta>)

  datatype Loaded = Loaded(fp: nat, sha: string, meta: Meta)

  datatype Manager = Manager(plugins: map<string, Loaded>, failed: map<string, nat>, reg: Registry, hotUpgrade: bool)

  /** What one visit did; `spawned` when a process was started, `refresh` when a rebuild of the collection task was asked for. */
  datatype Visit = Visit(m: Manager, spawned: bool, refresh: bool)

  /** Remembered as failed, with whatever the attempt left in the registries. */
  function Failed(m: Manager, f: File, reg: Registry): Visit {
    Visit(m.(failed := m.failed[f.path := f.fp], reg := reg), true, false)
  }

  function Upgraded(m: Manager, f: File): Visit
    requires f.path in m.plugins
  {
    var lp := m.plugins[f.path];
    if f.sha == lp.sha then
      Visit(m.(plugins := m.plugins[f.path := lp.(fp := f.fp)], failed := m.failed - {f.path}), false, false)
    else if f.meta.None? then Failed(m, f, m.reg)
    else
      var next := f.meta.value;
      var same := SignatureOf(lp.meta) == SignatureOf(next);
      if !same && !Accepts(Removed(m.reg, lp.meta), next) then Failed(m, f, Reregistered(m.reg, lp.meta, next, f.path))
      else
        Visit(m.(plugins := m.plugins[f.path := Loaded(f.fp, f.sha, next)], failed := m.failed - {f.path},
                 reg := if same then m.reg else Reregistered(m.reg, lp.meta, next, f.path)),
              true, !Matches(lp.meta.protocols, next.protocols))
  }

  function LoadNew(m: Manager, f: File): Visit {
    if f.meta.None? then Failed(m, f, m.reg)
    else
      var reg := Registered(m.reg, f.meta.value, f.path);
      if !Accepts(m.reg, f.meta.value) then Failed(m, f, reg)
      else
        Visit(m.(plugins := m.plugins[f.path := Loaded(f.fp, f.sha, f.meta.value)], failed := m.failed - {f.path},
                 reg := reg), true, true)
  }

  /** The branches of the scan, in their order. */
  function VisitOne(m: Manager, f: File): Visit {
    var failedBefore := f.path in m.failed && m.failed[f.path] == f.fp;
    if f.path in m.plugins then
      if m.plugins[f.path].fp == f.fp then Visit(m, false, false)
      else if failedBefore then Visit(m, false, false)
      else if m.hotUpgrade then Upgraded(m, f)
      else Visit(m, false, false)
    else if failedBefore then Visit(m, false, false)
    else LoadNew(m, f)
  }

  function VisitAll(m: Manager, files: seq<File>): Visit {
    if files == [] then Visit(m, false, false)
    else
      var v := VisitAll(m, files[..|files| - 1]);
      var w := VisitOne(v.m, files[|files| - 1]);
      Visit(w.m, v.spawned || w.spawned, v.refresh || w.refresh)
  }

  function Paths(files: seq<File>): (paths: set<string>)
    ensures forall f :: f in files ==> f.path in paths
  {
    if files == [] then {} else Paths(files[..|files| - 1]) + {files[|files| - 1].path}
  }

  /** The files of the plugins that vanished, unregistered in some order. */
  function Unloaded(m: Manager, gone: seq<string>): Manager
    requires forall p :: p in gone ==> p in m.plugins
  {
    if gone == [] then m
    else
      var t := Unloaded(m, gone[..|gone| - 1]);
      t.(reg := Removed(t.reg, m.plugins[gone[|gone| - 1]].meta))
  }

  /** The gone plugins, each once, in the order the map happens to yield them. */
  ghost predicate Lists(gone: seq<string>, m: Manager, seen: set<string>) {
    && (forall p :: p in gone <==> p in m.plugins && p !in seen)
    && forall i, j :: 0 <= i < j < |gone| ==> gone[i] != gone[j]
  }

  function Dropped(m: Manager, seen: set<string>, gone: seq<string>): Manager
    requires forall p :: p in gone ==> p in m.plugins
  {
    Unloaded(m, gone).(plugins := map p | p in m.plugins && p in seen :: m.plugins[p],
                       failed := map p | p in m.failed && p in seen :: m.failed[p])
  }

  // ----- A second scan does nothing -----

  ghost predicate Settled(m: Manager, f: File) {
    VisitOne(m, f) == Visit(m, false, false)
  }

  /** Two candidates that resolve to one path are one file. */
  ghost predicate Consistent(files: seq<File>) {
    forall i, j :: 0 <= i < |files| && 0 <= j < |files| && files[i].path == files[j].path ==> files[i] == files[j]
  }

  lemma VisitSettles(m: Manager, f: File)
    ensures Settled(VisitOne(m, f).m, f)
  {
  }

  /** A visit looks at and changes its own path only, the registries apart. */
  lemma VisitIsLocal(m: Manager, f: File, p: string)
    requires p != f.path
    ensures var t := VisitOne(m, f).m;
            && (p in t.plugins <==> p in m.plugins) && (p in m.plugins ==> t.plugins[p] == m.plugins[p])
            && (p in t.failed <==> p in m.failed) && (p in m.failed ==> t.failed[p] == m.failed[p])
            && t.hotUpgrade == m.hotUpgrade
  {
  }

  lemma StaysSettled(m: Manager, f: File, g: File)
    requires Settled(m, g) && (f.path == g.path ==> f == g)
    ensures Settled(VisitOne(m, f).m, g)
  {
    if f.path != g.path {
      VisitIsLocal(m, f, g.path);
    }
  }

  lemma {:induction false} AllSettled(m: Manager, files: seq<File>, k: nat)
    requires Consistent(files) && k < |files|
    ensures Settled(VisitAll(m, files).m, files[k])
  {
    var n := |files| - 1;
    if k < n {
      AllSettled(m, files[..n], k);
      StaysSettled(VisitAll(m, files[..n]).m, files[n], files[k]);
    } else {
      VisitSettles(VisitAll(m, files[..n]).m, files[n]);
    }
  }

  lemma {:induction false} SettledVisits(m: Manager, files: seq<File>)
    requires forall k :: 0 <= k < |files| ==> Settled(m, files[k])
    ensures VisitAll(m, files) == Visit(m, false, false)
  {
    if files != [] {
      SettledVisits(m, files[..|files| - 1]);
    }
  }

  lemma {:induction false} UnloadedKeeps(m: Manager, gone: seq<string>)
    requires forall p :: p in gone ==> p in m.plugins
    ensures var t := Unloaded(m, gone);
            t.plugins == m.plugins && t.failed == m.failed && t.hotUpgrade == m.hotUpgrade
  {
    if gone != [] {
      UnloadedKeeps(m, gone[..|gone| - 1]);
    }
  }

  lemma DroppedStaysSettled(m: Manager, seen: set<string>, gone: seq<string>, f: File)
    requires (forall p :: p in gone ==> p in m.plugins) && Settled(m, f) && f.path in seen
    ensures Settled(Dropped(m, seen, gone), f)
  {
    UnloadedKeeps(m, gone);
  }

  lemma HasMember(s: seq<string>)
    requires s != []
    ensures exists p :: p in s
  {
    assert s[0] in s;
  }

  /**
   After a scan, a scan of the same directory starts no process, changes nothing and
   asks for no refresh, whatever loads and upgrades failed in the first.
   */
  lemma SecondScanIsIdle(m: Manager, files: seq<File>, gone: seq<string>, again: seq<string>)
    requires Consistent(files) && Lists(gone, VisitAll(m, files).m, Paths(files))
    requires Lists(again, VisitAll(Dropped(VisitAll(m, files).m, Paths(files), gone), files).m, Paths(files))
    ensures var t := Dropped(VisitAll(m, files).m, Paths(files), gone);
            && VisitAll(t, files) == Visit(t, false, false)
            && again == [] && Dropped(t, Paths(files), again) == t
  {
    var v := VisitAll(m, files);
    var t := Dropped(v.m, Paths(files), gone);
    UnloadedKeeps(v.m, gone);
    forall k | 0 <= k < |files|
      ensures Settled(t, files[k])
    {
      AllSettled(m, files, k);
      assert files[k] in files;
      DroppedStaysSettled(v.m, Paths(files), gone, files[k]);
    }
    SettledVisits(t, files);
    if again != [] {
      HasMember(again);
    }
    assert (map p | p in t.plugins && p in Paths(files) :: t.plugins[p]) == t.plugins;
    assert (map p | p in t.failed && p in Paths(files) :: t.failed[p]) == t.failed;
  }

  // ----- The registries describe exactly the loaded plugins -----

  const BUILT_IN: string := ""

  /** Everything a loaded plugin declares is registered as its own. */
  ghost predicate Declared(reg: Registry, meta: Meta, owner: string) {
    && (forall name :: name in Names(meta.protocols) ==>
          name in reg.drivers && reg.drivers[name] == Drivers(meta.protocols, owner)[name])
    && meta.scope in reg.scopes && reg.scopes[meta.scope] == ScopeOf(meta, owner)
    && OwnNames(reg, meta)
  }

  /** Everything registered belongs to the gateway itself or is declared by a loaded plugin. */
  ghost predicate Accounted(reg: Registry, plugins: map<string, Loaded>) {
    && (forall name :: name in reg.drivers && reg.drivers[name].owner != BUILT_IN ==>
          reg.drivers[name].owner in plugins && name in Names(plugins[reg.drivers[name].owner].meta.protocols))
    && (forall s :: s in reg.scopes && reg.scopes[s].owner != BUILT_IN ==>
          reg.scopes[s].owner in plugins && plugins[reg.scopes[s].owner].meta.scope == s)
  }

  ghost predicate Exact(reg: Registry, plugins: map<string, Loaded>) {
    && BUILT_IN !in plugins
    && (forall p :: p in plugins ==> Declared(reg, plugins[p].meta, p))
    && Accounted(reg, plugins)
  }

  /** Two plugins that are both registered share no name and no scope. */
  lemma Apart(reg: Registry, meta: Meta, p: string, other: Meta, q: string)
    requires Declared(reg, meta, p) && Declared(reg, other, q) && p != q
    ensures Names(meta.protocols) !! Names(other.protocols) && meta.scope != other.scope
  {
    forall name | name in Names(meta.protocols) && name in Names(other.protocols)
      ensures false
    {
      OwnedDrivers(meta.protocols, p, name);
      OwnedDrivers(other.protocols, q, name);
    }
  }

  lemma AddDeclares(reg: Registry, meta: Meta, path: string)
    requires Free(reg, meta)
    ensures Declared(Added(reg, meta, path), meta, path)
  {
  }

  lemma AddKeepsDeclared(reg: Registry, other: Meta, p: string, meta: Meta, path: string)
    requires Declared(reg, other, p) && Free(reg, meta)
    ensures Declared(Added(reg, meta, path), other, p)
  {
    var after := Added(reg, meta, path);
    forall name | name in Names(other.protocols)
      ensures name in after.drivers && after.drivers[name] == Drivers(other.protocols, p)[name]
      ensures name !in Names(meta.protocols)
    {
      assert name in reg.drivers;
    }
    assert other.scope != meta.scope;
  }

  lemma AddKeepsAccounted(reg: Registry, plugins: map<string, Loaded>, path: string, lp: Loaded)
    requires Accounted(reg, plugins) && path !in plugins
    ensures Accounted(Added(reg, lp.meta, path), plugins[path := lp])
  {
    var after, more := Added(reg, lp.meta, path), plugins[path := lp];
    forall name | name in after.drivers && after.drivers[name].owner != BUILT_IN
      ensures after.drivers[name].owner in more
      ensures name in Names(more[after.drivers[name].owner].meta.protocols)
    {
      if name in Names(lp.meta.protocols) {
        OwnedDrivers(lp.meta.protocols, path, name);
      }
    }
  }

  lemma AddKeeps(reg: Registry, plugins: map<string, Loaded>, path: string, lp: Loaded)
    requires Exact(reg, plugins) && Free(reg, lp.meta) && path !in plugins && path != BUILT_IN
    ensures Exact(Added(reg, lp.meta, path), plugins[path := lp])
  {
    var after, more := Added(reg, lp.meta, path), plugins[path := lp];
    AddKeepsAccounted(reg, plugins, path, lp);
    forall p | p in more
      ensures Declared(after, more[p].meta, p)
    {
      if p == path {
        AddDeclares(reg, lp.meta, path);
      } else {
        AddKeepsDeclared(reg, plugins[p].meta, p, lp.meta, path);
      }
    }
  }

  lemma RemoveKeeps(reg: Registry, plugins: map<string, Loaded>, path: string)
    requires Exact(reg, plugins) && path in plugins
    ensures Exact(Removed(reg, plugins[path].meta), plugins - {path})
  {
    var meta := plugins[path].meta;
    assert Declared(reg, meta, path);
    forall p | p in plugins - {path}
      ensures Declared(Removed(reg, meta), plugins[p].meta, p)
    {
      assert Declared(reg, plugins[p].meta, p);
      Apart(reg, meta, path, plugins[p].meta, p);
    }
  }

  lemma SameDrivers(prior: seq<Protocol>, next: seq<Protocol>, owner: string)
    requires ProtocolSigs(prior) == ProtocolSigs(next)
    ensures Names(prior) == Names(next) && Drivers(prior, owner) == Drivers(next, owner)
  {
    assert Names(prior) == Names(next);
    forall name | name in Names(prior)
      ensures Drivers(prior, owner)[name] == Drivers(next, owner)[name]
    {
      DriversBySig(prior, owner, name);
      DriversBySig(next, owner, name);
    }
  }

  /** A new record under an equal fingerprint describes the same registrations. */
  lemma ReplaceKeeps(reg: Registry, plugins: map<string, Loaded>, path: string, lp: Loaded)
    requires Exact(reg, plugins) && path in plugins && SignatureOf(plugins[path].meta) == SignatureOf(lp.meta)
    ensures Exact(reg, plugins[path := lp])
  {
    SameDrivers(plugins[path].meta.protocols, lp.meta.protocols, path);
    assert Declared(reg, plugins[path].meta, path);
    assert Declared(reg, lp.meta, path);
    assert forall p :: p in plugins && p != path ==> Declared(reg, plugins[p].meta, p);
  }

  lemma ReregisterKeeps(reg: Registry, plugins: map<string, Loaded>, path: string, lp: Loaded)
    requires Exact(reg, plugins) && path in plugins && Free(Removed(reg, plugins[path].meta), lp.meta)
    ensures Exact(Added(Removed(reg, plugins[path].meta), lp.meta, path), plugins[path := lp])
  {
    RemoveKeeps(reg, plugins, path);
    AddKeeps(Removed(reg, plugins[path].meta), plugins - {path}, path, lp);
    assert (plugins - {path})[path := lp] == plugins[path := lp];
  }

  /** Something of the new version stayed behind: it is owned by a plugin that does not declare it. */
  lemma LeftoverIsSeen(reg: Registry, plugins: map<string, Loaded>, path: string, left: Registry)
    requires path in plugins && path != BUILT_IN && Accepts(left, plugins[path].meta)
    requires exists name :: name in left.drivers && name !in reg.drivers && left.drivers[name].owner == path
    ensures !Exact(Added(left, plugins[path].meta, path), plugins)
  {
    var prior := plugins[path].meta;
    AcceptsExactly(left, prior);
    var name :| name in left.drivers && name !in reg.drivers && left.drivers[name].owner == path;
    assert Added(left, prior, path).drivers[name].owner == path && name !in Names(prior.protocols);
  }

  /** The old version could not be put back: its scope is missing. */
  lemma MissingIsSeen(plugins: map<string, Loaded>, path: string, left: Registry)
    requires path in plugins && !Accepts(left, plugins[path].meta) && plugins[path].meta.scope !in left.scopes
    ensures !Exact(Registered(left, plugins[path].meta, path), plugins)
  {
    RefusedAddsOnly(left, plugins[path].meta, path);
    assert !Declared(Registered(left, plugins[path].meta, path), plugins[path].meta, path);
  }

  lemma UncleanUpgradeIsSeen(without: Registry, plugins: map<string, Loaded>, path: string, next: Meta)
    requires path in plugins && path != BUILT_IN && plugins[path].meta.scope !in without.scopes
    requires !Accepts(without, next)
    requires !(RefusedCleanly(without, next) && Distinct(plugins[path].meta.protocols))
    ensures !Exact(Registered(Registered(without, next, path), plugins[path].meta, path), plugins)
  {
    var left := Registered(without, next, path);
    RefusedLeavesNothing(without, next, path);
    RefusedAddsOnly(without, next, path);
    if !Accepts(left, plugins[path].meta) {
      MissingIsSeen(plugins, path, left);
    } else {
      AcceptsExactly(left, plugins[path].meta);
      assert left != without;
      LeftoverIsSeen(without, plugins, path, left);
    }
  }

  /** A refused upgrade leaves the registries describing what is loaded exactly when it restores them. */
  lemma RefusedUpgradeIsSeen(reg: Registry, plugins: map<string, Loaded>, path: string, next: Meta)
    requires Exact(reg, plugins) && path in plugins && !Accepts(Removed(reg, plugins[path].meta), next)
    ensures Exact(Reregistered(reg, plugins[path].meta, next, path), plugins)
            <==> RefusedCleanly(Removed(reg, plugins[path].meta), next) && Distinct(plugins[path].meta.protocols)
  {
    var prior := plugins[path].meta;
    assert Declared(reg, prior, path);
    RollBackExactly(reg, prior, next, path);
    if !(RefusedCleanly(Removed(reg, prior), next) && Distinct(prior.protocols)) {
      UncleanUpgradeIsSeen(Removed(reg, prior), plugins, path, next);
    }
  }

  lemma RefusedLoadIsSeen(reg: Registry, plugins: map<string, Loaded>, path: string, meta: Meta)
    requires Exact(reg, plugins) && path !in plugins && path != BUILT_IN && !Accepts(reg, meta)
    ensures Exact(Registered(reg, meta, path), plugins) <==> RefusedCleanly(reg, meta)
  {
    RefusedLeavesNothing(reg, meta, path);
    RefusedAddsOnly(reg, meta, path);
    var left := Registered(reg, meta, path);
    if left != reg {
      assert exists name :: name in left.drivers && name !in reg.drivers;
    }
  }

  predicate FailedBefore(m: Manager, f: File) {
    f.path in m.failed && m.failed[f.path] == f.fp
  }

  /** The visit finds a plugin whose file was replaced by a version that has to be registered anew. */
  predicate RegistersAnew(m: Manager, f: File) {
    && f.path in m.plugins && m.plugins[f.path].fp != f.fp && !FailedBefore(m, f) && m.hotUpgrade
    && f.sha != m.plugins[f.path].sha && f.meta.Some?
    && SignatureOf(m.plugins[f.path].meta) != SignatureOf(f.meta.value)
  }

  predicate RegistersNew(m: Manager, f: File) {
    f.path !in m.plugins && !FailedBefore(m, f) && f.meta.Some?
  }

  /** Nothing is refused, or only from outside and what was there before can be put back. */
  ghost predicate Clean(m: Manager, f: File) {
    && (RegistersNew(m, f) ==> Accepts(m.reg, f.meta.value) || RefusedCleanly(m.reg, f.meta.value))
    && (RegistersAnew(m, f) ==>
          var lp, next := m.plugins[f.path], f.meta.value;
          || Accepts(Removed(m.reg, lp.meta), next)
          || (RefusedCleanly(Removed(m.reg, lp.meta), next) && Distinct(lp.meta.protocols)))
  }

  lemma UpgradeKeepsExactly(m: Manager, f: File)
    requires Exact(m.reg, m.plugins) && RegistersAnew(m, f)
    ensures var t := VisitOne(m, f).m; Exact(t.reg, t.plugins) <==> Clean(m, f)
  {
    var lp, next := m.plugins[f.path], f.meta.value;
    AcceptsExactly(Removed(m.reg, lp.meta), next);
    if Accepts(Removed(m.reg, lp.meta), next) {
      ReregisterKeeps(m.reg, m.plugins, f.path, Loaded(f.fp, f.sha, next));
    } else {
      RefusedUpgradeIsSeen(m.reg, m.plugins, f.path, next);
    }
  }

  lemma LoadKeepsExactly(m: Manager, f: File)
    requires Exact(m.reg, m.plugins) && RegistersNew(m, f) && f.path != BUILT_IN
    ensures var t := VisitOne(m, f).m; Exact(t.reg, t.plugins) <==> Clean(m, f)
  {
    AcceptsExactly(m.reg, f.meta.value);
    if Accepts(m.reg, f.meta.value) {
      AddKeeps(m.reg, m.plugins, f.path, Loaded(f.fp, f.sha, f.meta.value));
    } else {
      RefusedLoadIsSeen(m.reg, m.plugins, f.path, f.meta.value);
    }
  }

  /** Without registering anything a visit at most replaces the record of its path by one of the same fingerprint. */
  lemma QuietVisit(m: Manager, f: File)
    requires !RegistersAnew(m, f) && !RegistersNew(m, f)
    ensures var t := VisitOne(m, f).m;
            && t.reg == m.reg && (f.path !in m.plugins ==> t.plugins == m.plugins)
            && (f.path in m.plugins ==>
                  && f.path in t.plugins && t.plugins == m.plugins[f.path := t.plugins[f.path]]
                  && SignatureOf(t.plugins[f.path].meta) == SignatureOf(m.plugins[f.path].meta))
  {
  }

  /** A visit leaves the registries describing the loaded plugins exactly when it was clean. */
  lemma VisitKeepsExactly(m: Manager, f: File)
    requires Exact(m.reg, m.plugins) && f.path != BUILT_IN
    ensures var t := VisitOne(m, f).m; Exact(t.reg, t.plugins) <==> Clean(m, f)
  {
    if RegistersAnew(m, f) {
      UpgradeKeepsExactly(m, f);
    } else if RegistersNew(m, f) {
      LoadKeepsExactly(m, f);
    } else {
      QuietVisit(m, f);
      if f.path in m.plugins {
        ReplaceKeeps(m.reg, m.plugins, f.path, VisitOne(m, f).m.plugins[f.path]);
      }
    }
  }

  /** Metadata that name no protocol twice are always visited cleanly. */
  lemma DistinctVisitsClean(m: Manager, f: File)
    requires f.meta.Some? ==> Distinct(f.meta.value.protocols)
    requires f.path in m.plugins ==> Distinct(m.plugins[f.path].meta.protocols)
    ensures Clean(m, f)
  {
    if RegistersNew(m, f) {
      DistinctIsClean(m.reg, f.meta.value);
    } else if RegistersAnew(m, f) {
      DistinctIsClean(Removed(m.reg, m.plugins[f.path].meta), f.meta.value);
    }
  }

  ghost predicate AllClean(m: Manager, files: seq<File>) {
    forall k :: 0 <= k < |files| ==> Clean(VisitAll(m, files[..k]).m, files[k])
  }

  ghost predicate AllDistinct(plugins: map<string, Loaded>) {
    forall p :: p in plugins ==> Distinct(plugins[p].meta.protocols)
  }

  ghost predicate DistinctFile(f: File) {
    f.meta.Some? ==> Distinct(f.meta.value.protocols)
  }

  lemma VisitKeepsDistinct(m: Manager, f: File)
    requires AllDistinct(m.plugins) && DistinctFile(f)
    ensures AllDistinct(VisitOne(m, f).m.plugins)
  {
  }

  lemma {:induction false} VisitsKeepDistinct(m: Manager, files: seq<File>)
    requires AllDistinct(m.plugins) && forall k :: 0 <= k < |files| ==> DistinctFile(files[k])
    ensures AllDistinct(VisitAll(m, files).m.plugins)
  {
    if files != [] {
      var n := |files| - 1;
      VisitsKeepDistinct(m, files[..n]);
      VisitKeepsDistinct(VisitAll(m, files[..n]).m, files[n]);
    }
  }

  /** As long as nobody names a protocol twice every visit of every scan is clean. */
  lemma DistinctScanIsClean(m: Manager, files: seq<File>)
    requires AllDistinct(m.plugins) && forall k :: 0 <= k < |files| ==> DistinctFile(files[k])
    ensures AllClean(m, files)
  {
    forall k | 0 <= k < |files|
      ensures Clean(VisitAll(m, files[..k]).m, files[k])
    {
      VisitsKeepDistinct(m, files[..k]);
      DistinctVisitsClean(VisitAll(m, files[..k]).m, files[k]);
    }
  }

  ghost predicate NoneBuiltIn(files: seq<File>) {
    forall k :: 0 <= k < |files| ==> files[k].path != BUILT_IN
  }

  lemma {:induction false} VisitsKeepExact(m: Manager, files: seq<File>)
    requires Exact(m.reg, m.plugins) && NoneBuiltIn(files) && AllClean(m, files)
    ensures var t := VisitAll(m, files).m; Exact(t.reg, t.plugins)
  {
    if files != [] {
      var n := |files| - 1;
      assert forall k :: 0 <= k < n ==> files[..n][..k] == files[..k];
      VisitsKeepExact(m, files[..n]);
      VisitKeepsExactly(VisitAll(m, files[..n]).m, files[n]);
    }
  }

  function Without(plugins: map<string, Loaded>, gone: seq<string>): map<string, Loaded> {
    map p | p in plugins && p !in gone :: plugins[p]
  }

  lemma WithoutLast(plugins: map<string, Loaded>, gone: seq<string>)
    requires gone != []
    ensures Without(plugins, gone) == Without(plugins, gone[..|gone| - 1]) - {gone[|gone| - 1]}
  {
    var front, last := gone[..|gone| - 1], gone[|gone| - 1];
    assert gone == front + [last];
  }

  lemma {:induction false} UnloadKeepsExact(m: Manager, gone: seq<string>)
    requires Exact(m.reg, m.plugins) && (forall p :: p in gone ==> p in m.plugins)
    requires forall i, j :: 0 <= i < j < |gone| ==> gone[i] != gone[j]
    ensures Exact(Unloaded(m, gone).reg, Without(m.plugins, gone))
  {
    if gone == [] {
      assert Without(m.plugins, gone) == m.plugins;
    } else {
      var front, last := gone[..|gone| - 1], gone[|gone| - 1];
      UnloadKeepsExact(m, front);
      assert last !in front;
      WithoutLast(m.plugins, gone);
      RemoveKeeps(Unloaded(m, front).reg, Without(m.plugins, front), last);
    }
  }

  /**
   After every scan, whatever loaded, failed, was upgraded or vanished: a protocol or
   scope is registered by a plugin exactly when that plugin is loaded and declares it,
   provided no visit left something behind (VisitKeepsExactly).
   */
  lemma ScanKeepsExact(m: Manager, files: seq<File>, gone: seq<string>)
    requires Exact(m.reg, m.plugins) && NoneBuiltIn(files) && AllClean(m, files)
    requires Lists(gone, VisitAll(m, files).m, Paths(files))
    ensures var t := Dropped(VisitAll(m, files).m, Paths(files), gone); Exact(t.reg, t.plugins)
  {
    VisitsKeepExact(m, files);
    var v := VisitAll(m, files).m;
    UnloadKeepsExact(v, gone);
    assert (map p | p in v.plugins && p in Paths(files) :: v.plugins[p])
        == Without(v.plugins, gone);
  }

  // ----- When a new file ends the scan loaded -----

  predicate Clashes(a: Meta, b: Meta) {
    a.scope == b.scope || !(Names(a.protocols) !! Names(b.protocols))
  }

  /** The gateway itself holds the scope or a name of the plugin. */
  ghost predicate HeldByGateway(reg: Registry, meta: Meta) {
    || (exists name :: name in Names(meta.protocols) && name in reg.drivers && reg.drivers[name].owner == BUILT_IN)
    || (exists s :: s in reg.scopes && reg.scopes[s].owner == BUILT_IN
                    && (s == meta.scope || !(reg.scopes[s].names !! Names(meta.protocols))))
  }

  /** What a plugin needs is free exactly when neither the gateway nor a loaded plugin holds any of it. */
  lemma FreeExactly(reg: Registry, plugins: map<string, Loaded>, meta: Meta)
    requires Exact(reg, plugins)
    ensures Free(reg, meta)
            <==> !HeldByGateway(reg, meta) && forall p :: p in plugins ==> !Clashes(plugins[p].meta, meta)
  {
    if Free(reg, meta) {
      forall p | p in plugins
        ensures !Clashes(plugins[p].meta, meta)
      {
        assert Declared(reg, plugins[p].meta, p);
      }
    } else {
      NotFreeIsHeld(reg, plugins, meta);
    }
  }

  lemma NotFreeIsHeld(reg: Registry, plugins: map<string, Loaded>, meta: Meta)
    requires Exact(reg, plugins) && !Free(reg, meta)
    ensures HeldByGateway(reg, meta) || exists p :: p in plugins && Clashes(plugins[p].meta, meta)
  {
    if !ScopeFree(reg, meta) {
      var s :| s in reg.scopes && (s == meta.scope || !(reg.scopes[s].names !! Names(meta.protocols)));
      if reg.scopes[s].owner != BUILT_IN {
        var p := reg.scopes[s].owner;
        assert Declared(reg, plugins[p].meta, p);
        assert Clashes(plugins[p].meta, meta);
      }
    } else {
      var name :| name in reg.drivers && name in Names(meta.protocols);
      if reg.drivers[name].owner != BUILT_IN {
        assert Clashes(plugins[reg.drivers[name].owner].meta, meta);
      }
    }
  }

  lemma VisitKeepsLoaded(m: Manager, f: File, p: string)
    requires p in m.plugins
    ensures var t := VisitOne(m, f).m; p in t.plugins && (p != f.path ==> t.plugins[p] == m.plugins[p])
  {
  }

  /** Whatever a scan visits, what was loaded before is still there at every visit, unchanged unless its own file is visited. */
  lemma {:induction false} VisitsKeepLoaded(m: Manager, files: seq<File>, p: string)
    requires p in m.plugins
    ensures var t := VisitAll(m, files).m; p in t.plugins && (p !in Paths(files) ==> t.plugins[p] == m.plugins[p])
  {
    if files != [] {
      VisitsKeepLoaded(m, files[..|files| - 1], p);
      VisitKeepsLoaded(VisitAll(m, files[..|files| - 1]).m, files[|files| - 1], p);
    }
  }

  lemma {:induction false} VisitsAreLocal(m: Manager, files: seq<File>, p: string)
    requires p !in Paths(files)
    ensures var t := VisitAll(m, files).m;
            && (p in t.plugins <==> p in m.plugins)
            && (p in t.failed <==> p in m.failed) && (p in m.failed ==> t.failed[p] == m.failed[p])
  {
    if files != [] {
      VisitsAreLocal(m, files[..|files| - 1], p);
      VisitIsLocal(VisitAll(m, files[..|files| - 1]).m, files[|files| - 1], p);
    }
  }

  /** The record of a path from its own visit on, when every later candidate of that path is the same file. */
  ghost predicate Kept(m: Manager, path: string, fp: nat, loaded: bool) {
    if loaded then path in m.plugins else path !in m.plugins && path in m.failed && m.failed[path] == fp
  }

  lemma {:induction false} VisitsKeepRecord(m: Manager, files: seq<File>, f: File, n: nat, loaded: bool)
    requires n <= |files| && Kept(VisitAll(m, files[..n]).m, f.path, f.fp, loaded)
    requires forall k :: n <= k < |files| && files[k].path == f.path ==> files[k] == f
    ensures Kept(VisitAll(m, files).m, f.path, f.fp, loaded)
    decreases |files| - n
  {
    if n == |files| {
      assert files[..n] == files;
    } else {
      assert files[..n + 1][..n] == files[..n];
      if files[n].path != f.path {
        VisitIsLocal(VisitAll(m, files[..n]).m, files[n], f.path);
      } else if loaded {
        VisitKeepsLoaded(VisitAll(m, files[..n]).m, files[n], f.path);
      }
      VisitsKeepRecord(m, files, f, n + 1, loaded);
    }
  }

  lemma {:induction false} NotYetVisited(files: seq<File>, path: string)
    requires forall k :: 0 <= k < |files| ==> files[k].path != path
    ensures path !in Paths(files)
  {
    if files != [] {
      NotYetVisited(files[..|files| - 1], path);
    }
  }

  /** File k is new: not loaded, not remembered as failed, and not a second way to reach an earlier candidate. */
  ghost predicate IsNew(m: Manager, files: seq<File>, k: nat)
    requires k < |files|
  {
    && files[k].path !in m.plugins && !FailedBefore(m, files[k])
    && forall j :: 0 <= j < k ==> files[j].path != files[k].path
  }

  /**
   A new file ends the scan loaded exactly when it describes itself, names no protocol
   twice, and at its visit neither the gateway nor any plugin holds its scope or one of
   its names: no earlier file of the scan, and no plugin that was loaded before, not
   even one whose file has vanished and which this very scan unloads.
   */
  lemma NewFileLoadsExactly(m: Manager, files: seq<File>, gone: seq<string>, k: nat)
    requires Exact(m.reg, m.plugins) && Consistent(files) && NoneBuiltIn(files)
    requires k < |files| && IsNew(m, files, k) && AllClean(m, files[..k])
    requires Lists(gone, VisitAll(m, files).m, Paths(files))
    ensures var v, t, f := VisitAll(m, files[..k]).m, Dropped(VisitAll(m, files).m, Paths(files), gone), files[k];
            && (forall p :: p in m.plugins ==> p in v.plugins)
            && (f.path in t.plugins
                <==> && f.meta.Some? && Distinct(f.meta.value.protocols)
                     && !HeldByGateway(v.reg, f.meta.value)
                     && forall p :: p in v.plugins ==> !Clashes(v.plugins[p].meta, f.meta.value))
            && (f.path !in t.plugins ==> FailedBefore(t, f))
  {
    var v, f := VisitAll(m, files[..k]).m, files[k];
    forall p | p in m.plugins
      ensures p in v.plugins
    {
      VisitsKeepLoaded(m, files[..k], p);
    }
    NotYetVisited(files[..k], f.path);
    VisitsAreLocal(m, files[..k], f.path);
    VisitsKeepExact(m, files[..k]);
    if f.meta.Some? {
      AcceptsExactly(v.reg, f.meta.value);
      FreeExactly(v.reg, v.plugins, f.meta.value);
    }
    RecordedAtVisit(m, files, k);
    var loaded := f.meta.Some? && Accepts(v.reg, f.meta.value);
    VisitsKeepRecord(m, files, f, k + 1, loaded);
    UnloadedKeeps(VisitAll(m, files).m, gone);
    assert f in files;
  }

  lemma RecordedAtVisit(m: Manager, files: seq<File>, k: nat)
    requires k < |files| && files[k].path !in VisitAll(m, files[..k]).m.plugins
    requires !FailedBefore(VisitAll(m, files[..k]).m, files[k])
    ensures var f := files[k];
            Kept(VisitAll(m, files[..k + 1]).m, f.path, f.fp,
                 f.meta.Some? && Accepts(VisitAll(m, files[..k]).m.reg, f.meta.value))
  {
    assert files[..k + 1][..k] == files[..k];
  }

  /**
   A plugin whose file is renamed, or replaced by another file that declares any of
   the same, is lost: the new file is visited while the old registration still holds
   the names, and is remembered as failed, though this scan frees them.
   */
  lemma RenamedPluginIsStranded(m: Manager, files: seq<File>, gone: seq<string>, k: nat, former: string)
    requires Exact(m.reg, m.plugins) && Consistent(files) && NoneBuiltIn(files)
    requires k < |files| && IsNew(m, files, k) && AllClean(m, files[..k])
    requires Lists(gone, VisitAll(m, files).m, Paths(files))
    requires former in m.plugins && former !in Paths(files)
    requires files[k].meta.Some? && Clashes(m.plugins[former].meta, files[k].meta.value)
    ensures var t := Dropped(VisitAll(m, files).m, Paths(files), gone);
            files[k].path !in t.plugins && former !in t.plugins && FailedBefore(t, files[k])
  {
    NewFileLoadsExactly(m, files, gone, k);
    var v := VisitAll(m, files[..k]).m;
    PathsOfFront(files, k);
    VisitsKeepLoaded(m, files[..k], former);
    assert Clashes(v.plugins[former].meta, files[k].meta.value);
  }

  /** After the scan a name is taken only by the gateway or by what is still loaded: what vanished holds nothing. */
  lemma FreeAfterScan(m: Manager, files: seq<File>, gone: seq<string>, meta: Meta)
    requires Exact(m.reg, m.plugins) && NoneBuiltIn(files) && AllClean(m, files)
    requires Lists(gone, VisitAll(m, files).m, Paths(files))
    ensures var t := Dropped(VisitAll(m, files).m, Paths(files), gone);
            Free(t.reg, meta)
            <==> !HeldByGateway(t.reg, meta) && forall p :: p in t.plugins ==> !Clashes(t.plugins[p].meta, meta)
  {
    ScanKeepsExact(m, files, gone);
    var t := Dropped(VisitAll(m, files).m, Paths(files), gone);
    FreeExactly(t.reg, t.plugins, meta);
  }

  lemma {:induction false} PathsOfFront(files: seq<File>, k: nat)
    requires k <= |files|
    ensures Paths(files[..k]) <= Paths(files)
    decreases |files|
  {
    if k == |files| {
      assert files[..k] == files;
    } else {
      assert files[..|files| - 1][..k] == files[..k];
      PathsOfFront(files[..|files| - 1], k);
    }
  }

  /** What is remembered as failed stays unloaded through every scan that finds it unchanged. */
  lemma SuppressedStays(m: Manager, files: seq<File>, gone: seq<string>, f: File)
    requires f.path !in m.plugins && FailedBefore(m, f) && f in files
    requires forall k :: 0 <= k < |files| && files[k].path == f.path ==> files[k] == f
    requires Lists(gone, VisitAll(m, files).m, Paths(files))
    ensures var t := Dropped(VisitAll(m, files).m, Paths(files), gone); f.path !in t.plugins && FailedBefore(t, f)
  {
    VisitsKeepRecord(m, files, f, 0, false);
    UnloadedKeeps(VisitAll(m, files).m, gone);
  }

  // ----- The scan itself -----

  class PluginHost {
    const hotUpgrade: bool
    const registries: Registries
    var plugins: map<string, Loaded>
    var failed: map<string, nat>

    constructor (registries: Registries, hotUpgrade: bool)
      ensures Now() == Manager(map[], map[], registries.Now(), hotUpgrade) && this.registries == registries
    {
      this.registries, this.hotUpgrade, plugins, failed := registries, hotUpgrade, map[], map[];
    }

    function Now(): Manager
      reads this, registries
    {
      Manager(plugins, failed, registries.Now(), hotUpgrade)
    }

    /** The file's process is up and has described itself. */
    method Load(f: File, meta: Meta) returns (ok: bool)
      requires f.meta == Some(meta)
      modifies this, registries
      ensures ok <==> Accepts(old(registries.Now()), meta)
      ensures registries.Now() == Registered(old(registries.Now()), meta, f.path) && failed == old(failed)
      ensures plugins == if ok then old(plugins)[f.path := Loaded(f.fp, f.sha, meta)] else old(plugins)
    {
      ok := registries.Register(meta, f.path);
      if ok {
        plugins := plugins[f.path := Loaded(f.fp, f.sha, meta)];
      }
    }

    /** Phase two of an upgrade: register anew if the fingerprint demands it, then swap. */
    method Replace(f: File, meta: Meta) returns (ok: bool, refresh: bool)
      requires f.path in plugins && f.meta == Some(meta)
      modifies this, registries
      ensures var prior := old(plugins)[f.path].meta; var same := SignatureOf(prior) == SignatureOf(meta);
              && (ok <==> same || Accepts(Removed(old(registries.Now()), prior), meta))
              && registries.Now() == (if same then old(registries.Now())
                                      else Reregistered(old(registries.Now()), prior, meta, f.path))
              && plugins == (if ok then old(plugins)[f.path := Loaded(f.fp, f.sha, meta)] else old(plugins))
              && failed == old(failed) && (refresh <==> ok && !Matches(prior.protocols, meta.protocols))
    {
      var prior := plugins[f.path].meta;
      ok := SameSignature(SignatureOf(prior), SignatureOf(meta));
      if !ok {
        ok := registries.Reregister(prior, meta, f.path);
      }
      if !ok {
        return false, false;
      }
      plugins := plugins[f.path := Loaded(f.fp, f.sha, meta)];
      refresh := NeedsTaskRebuild(prior, meta);
    }

    method Upgrade(f: File) returns (ok: bool, refresh: bool)
      requires f.path in plugins
      modifies this, registries
      ensures var v := Upgraded(old(Now()), f);
              && refresh == v.refresh && plugins == v.m.plugins && registries.Now() == v.m.reg && failed == old(failed)
              && v.m.failed == if ok then old(failed) - {f.path} else old(failed)[f.path := f.fp]
    {
      if f.sha == plugins[f.path].sha {
        plugins := plugins[f.path := plugins[f.path].(fp := f.fp)];
        return true, false;
      }
      if f.meta.None? {
        return false, false;
      }
      ok, refresh := Replace(f, f.meta.value);
    }

    method VisitFile(f: File) returns (refresh: bool)
      modifies this, registries
      ensures Now() == VisitOne(old(Now()), f).m && refresh == VisitOne(old(Now()), f).refresh
    {
      refresh := false;
      var failedBefore := f.path in failed && failed[f.path] == f.fp;
      var ok: bool;
      if f.path in plugins {
        if plugins[f.path].fp == f.fp || failedBefore || !hotUpgrade {
          return;
        }
        ok, refresh := Upgrade(f);
      } else {
        if failedBefore {
          return;
        }
        ok := false;
        if f.meta.Some? {
          ok := Load(f, f.meta.value);
        }
        refresh := ok;
      }
      failed := if ok then failed - {f.path} else failed[f.path := f.fp];
    }

    method VisitFiles(files: seq<File>) returns (seen: set<string>, refresh: bool)
      modifies this, registries
      ensures Now() == VisitAll(old(Now()), files).m && seen == Paths(files)
      ensures refresh == VisitAll(old(Now()), files).refresh
    {
      seen, refresh := {}, false;
      assert files[..0] == [];
      for i := 0 to |files|
        invariant Now() == VisitAll(old(Now()), files[..i]).m && seen == Paths(files[..i])
        invariant refresh == VisitAll(old(Now()), files[..i]).refresh
      {
        assert files[..i + 1][..i] == files[..i];
        seen := seen + {files[i].path};
        var changed := VisitFile(files[i]);
        refresh := refresh || changed;
      }
      assert files[..|files|] == files;
    }

    method Unload(paths: seq<string>)
      requires forall p :: p in paths ==> p in plugins
      modifies registries
      ensures Now() == Unloaded(old(Now()), paths)
    {
      assert paths[..0] == [];
      for i := 0 to |paths|
        invariant Now() == Unloaded(old(Now()), paths[..i])
      {
        assert paths[..i + 1][..i] == paths[..i];
        registries.Unregister(plugins[paths[i]].meta);
      }
      assert paths[..|paths|] == paths;
    }

    /** A refresh is asked for when a plugin was loaded, was upgraded to other protocols, or has gone. */
    method ScanOnce(files: seq<File>) returns (gone: seq<string>, refresh: bool)
      modifies this, registries
      ensures Lists(gone, VisitAll(old(Now()), files).m, Paths(files))
      ensures Now() == Dropped(VisitAll(old(Now()), files).m, Paths(files), gone)
      ensures refresh <==> VisitAll(old(Now()), files).refresh || gone != []
    {
      var seen, changed := VisitFiles(files);
      gone := GoneFrom(plugins, seen);
      ghost var before := Now();
      Unload(gone);
      UnloadedKeeps(before, gone);
      plugins := map p | p in plugins && p in seen :: plugins[p];
      failed := map p | p in failed && p in seen :: failed[p];
      refresh := changed || |gone| > 0;
    }
  }

  method GoneFrom(plugins: map<string, Loaded>, seen: set<string>) returns (gone: seq<string>)
    ensures forall p :: p in gone <==> p in plugins && p !in seen
    ensures forall i, j :: 0 <= i < j < |gone| ==> gone[i] != gone[j]
  {
    gone := [];
    var left := plugins.Keys - seen;
    while left != {}
      invariant left <= plugins.Keys - seen
      invariant forall p :: p in gone <==> p in plugins && p !in seen && p !in left
      invariant forall i, j :: 0 <= i < j < |gone| ==> gone[i] != gone[j]
      decreases |left|
    {
      var p :| p in left;
      gone := gone + [p];
      left := left - {p};
    }
  }
}
