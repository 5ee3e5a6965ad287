/**
 What one visit of the directory scan decides (pluginhost/manager.go,
 pluginhost/upgrade.go): when a process is started, when a version is taken over, and
 when the collection task is to be rebuilt.
 */
module PluginVisits {

  import opened Wrappers
  import opened PluginRegistry
  import opened PluginUpgrade
  import opened PluginScan

  /** The file differs from what was loaded, in attributes and in content. */
  predicate Replaced(m: Manager, f: File) {
    f.path in m.plugins && f.fp != m.plugins[f.path].fp && f.sha != m.plugins[f.path].sha
  }

  /** The new version can take the place of the old one. */
  predicate Fits(m: Manager, f: File)
    requires f.path in m.plugins
  {
    && f.meta.Some?
    && (SignatureOf(m.plugins[f.path].meta) == SignatureOf(f.meta.value)
        || Accepts(Removed(m.reg, m.plugins[f.path].meta), f.meta.value))
  }

  /**
   A process is started exactly for a file that has not failed before in this version
   and is either new or, with hot upgrade on, replaced by other content.
   */
  lemma SpawnsExactly(m: Manager, f: File)
    ensures VisitOne(m, f).spawned
            <==> !FailedBefore(m, f) && (f.path !in m.plugins || (m.hotUpgrade && Replaced(m, f)))
    ensures !VisitOne(m, f).spawned ==>
              var t := VisitOne(m, f).m;
              && t.reg == m.reg && t.plugins.Keys == m.plugins.Keys
              && (f.path in m.plugins ==> t.plugins[f.path] == m.plugins[f.path].(fp := t.plugins[f.path].fp))
  {
  }

  /** What is loaded for a new file: it, exactly when it is accepted; otherwise it is remembered as failed. */
  lemma LoadsExactly(m: Manager, f: File)
    requires f.path !in m.plugins && !FailedBefore(m, f)
    ensures var t := VisitOne(m, f).m;
            if f.meta.Some? && Accepts(m.reg, f.meta.value)
            then t.plugins == m.plugins[f.path := Loaded(f.fp, f.sha, f.meta.value)] && f.path !in t.failed
            else t.plugins == m.plugins && FailedBefore(t, f)
  {
  }

  /** What runs after a replaced file was visited: the new version exactly when it fits, else the old one. */
  lemma UpgradesExactly(m: Manager, f: File)
    requires m.hotUpgrade && Replaced(m, f) && !FailedBefore(m, f)
    ensures var t := VisitOne(m, f).m;
            if Fits(m, f)
            then t.plugins == m.plugins[f.path := Loaded(f.fp, f.sha, f.meta.value)] && f.path !in t.failed
            else t.plugins == m.plugins && FailedBefore(t, f)
  {
  }

  /** Same content under new attributes: only the attributes are noted, and an earlier failure is forgotten. */
  lemma TouchedIsNoted(m: Manager, f: File)
    requires f.path in m.plugins && f.fp != m.plugins[f.path].fp && f.sha == m.plugins[f.path].sha
    requires m.hotUpgrade && !FailedBefore(m, f)
    ensures VisitOne(m, f).m == m.(plugins := m.plugins[f.path := m.plugins[f.path].(fp := f.fp)], failed := m.failed - {f.path})
  {
  }

  /** A rebuild of the collection task is asked for exactly when a plugin was loaded, or upgraded to other protocols. */
  lemma RefreshesExactly(m: Manager, f: File)
    ensures var t := VisitOne(m, f).m;
            VisitOne(m, f).refresh
            <==> || (f.path !in m.plugins && f.path in t.plugins)
                 || (f.path in m.plugins && t.plugins[f.path].sha != m.plugins[f.path].sha
                     && !Matches(m.plugins[f.path].meta.protocols, t.plugins[f.path].meta.protocols))
  {
  }
}
