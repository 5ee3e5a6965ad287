# IoT gateway: a verified model of its protocols and state machines

The gateway collects values from devices through plugin processes, pushes them to
downstream systems and lets operators scan for and control devices.  This project
models the nine places where that rests on a small protocol or state machine, and
proves what each of them keeps.  All paths below are relative to the repository
root; `dafny verify dfyconfig.toml` checks everything.

## What is modelled

| files | component | main result |
|---|---|---|
| `plugin_fleet`, `plugin_session`, `plugin_use`, `plugin_process`, `remote_driver`, `reply_check` | generations of plugin processes behind a hot-swappable link, and the session ids drivers hold | over every interleaving of crashes, restarts, hot swaps and gated calls, a session id only reaches the client that issued it (`PluginSession.SessionsReachTheirIssuer`) |
| `plugin_client`, `plugin_replies` | request multiplexing over one plugin connection | own replies only, no blocked reader, no caller left hanging |
| `plugin_registry`, `plugin_upgrade`, `plugin_scan`, `plugin_visits` | registration, hot upgrade with roll back, directory scan | when exactly a failed upgrade restores the registries and a new file ends up loaded; a scan of an unchanged directory is idle |
| `outbox`, `outbox_runs`, `outbox_calls`, `writer` | drop-oldest queue, aggregating writers, cache write loop | every batch accounted for in every interleaving; an orderly shutdown leaves none in memory |
| `spool`, `drain`, `drain_payloads` | the offline cache and its replay with poison detection and narrowing | replay terminates in id order; a policy spares innocent batches exactly when it narrows |
| `change`, `push_engine`, `push_calls`, `push_order` | change-only suppression and dispatch in batches | suppression is invisible to every channel over every run |
| `ipv4`, `targets`, `target_list`, `schedule`, `scan_job`, `scan_results`, `scan_calls` | paged target lists, job state machine, time estimate | pages tile one list; done with nothing remaining means everything evaluated; estimates are upper bounds |
| `collector`, `collector_progress` | polls, control calls, refresh and stop around device drivers | calls on a driver never overlap, none after close, one connection per device |
| `alarm` | debounced alarms kept in a table across restarts | table and trackers refine a two-field specification over every run |
| `runtime_config` | runtime settings: save, publish, apply, compensate | reloading agrees with the live snapshot exactly when compensation worked |
| `rate_limit` | fixed windows with lazy pruning | at most twice the limit in any minute; pruning changes no decision |
| `entity_code`, `decimal` | codes generated from names | the suffix search ends and yields a free, well-formed code |

`wrappers` and `collections` hold shared vocabulary.

## How it is built

Concurrency is a step system: a state, an `Action` per critical section, channel
operation or atomic read, `Enabled` and `Step`, and `Run` over a list of actions
in which actions that are not enabled have no effect.  Theorems about `Run` are
therefore theorems about every interleaving.  Plugins, downstream systems,
storage outcomes and clocks are parameters of the actions, or functions the
theorems quantify over.  Code that a single goroutine executes between two such
points is given as classes and methods with loops, each proved against the
function the step system uses.

Weighing the batches in each place (`Occurs`) takes the place of a disjoint partition
in the outbox: by any weights the sum over all places never changes, so neither does
how often one batch occurs, nor how many there are.

Safety over all runs is complemented by what each step decides, stated apart from the
functions that compute it, and by runs that carry an operation through to its end.

## Where the code falls short of what it promises

Each of these has a lemma with the input or run that shows it, and the exact
condition under which the code does keep its promise.

- **Replay without narrowing.**  `DrainPolicy` admits poison detection without
  narrowing, and the TDengine channel uses it: a good batch at the head of a bad
  group is dropped (`Drain.GroupedPolicyDropsInnocent`).  Safe if and only if
  poison detection comes with narrowing (`Drain.PolicySafeExactly`).
- **Announced number of targets.**  `hostCount` and the address walk agree, and
  following the announced offsets covers the list, if and only if no /0 network is
  scanned host by host (`Targets.RequestedIsLength`, `Targets.PagesCoverTheList`).
- **A continuation that waited too long.**  `Continue` waits outside the lock; if
  another continuation replaces the batch meanwhile, any scan that has targets can
  report done with nothing evaluated (`ScanJob.StaleContinueReportsDone`).  Done can
  be relied on if and only if continuations see the end of the job's current batch,
  or there is nothing to scan (`ScanJob.DoneIsRightExactly`).
- **Renamed plugin file.**  The new path fails to load while the old one still
  holds the names, is remembered as failed, and stays unloaded although the same
  scan frees the names (`PluginScan.RenamedPluginIsStranded`,
  `PluginScan.SuppressedStays`, `PluginScan.FreeAfterScan`).  A new file ends a scan
  loaded if and only if nothing of what it declares is held at its visit
  (`PluginScan.NewFileLoadsExactly`).
- **Metadata naming a protocol twice.**  Nothing in the repository excludes them;
  whether the SDK's own check of the metadata does is not visible here.  Only for
  them can a refused load leave something behind or a refused upgrade not be undone;
  the exact conditions are `PluginRegistry.RefusedLeavesNothing` and
  `PluginRegistry.RollBackExactly`.  They
  can enter unnoticed, as a version with an unchanged fingerprint is taken over
  without being registered (`PluginUpgrade.RepeatedNameSpoilsRollBack`).  The
  comparison that decides on a task rebuild misses no change even so
  (`PluginUpgrade.RebuildExactly`).
- **Administrative clear of an alarm.**  Memory and table are cleared in two steps;
  the second is harmless if and only if the target has not been judged abnormal in
  between (`Alarm.LateClearIsSafeExactly`).  Two trackers of one target type break
  each other, as the source itself warns (`Alarm.SharedTypeBreaks`).
- **A point named more than once in one control request** fills its window by as
  often as it is named, and overruns the limit exactly when that exceeds the room
  left (`RateLimit.DuplicatePointOverruns`); the caller refuses such requests at
  `backend/service/controlService.go:443-453`.
- **Shutdown out of order** strands a batch in the queue
  (`OutboxRuns.LateBatchIsStranded`); without loss if and only if the order is kept
  (`OutboxRuns.ShutdownSafeExactly`).
- **Sessions need the device gate.**  Without it an old id can reach a process where
  it is another driver's session (`PluginSession.OverlapMisdirects`); safe if and
  only if the gate holds (`PluginSession.GateIsNeededExactly`).
- **The drop counter** also counts a poison verdict whose batch was not deleted,
  because it had been trimmed or storage refused, and leaves out trimmed batches,
  batches the storage refused and empty payloads (`OutboxRuns.DropCountExact`).
- **A setting that could not be compensated.**  When an applier refuses and the
  compensating write fails too, table and snapshot disagree unless the value was
  the same (`RuntimeConfig.Manager.Update`).

## Model

| member | source | states |
|---|---|---|
| `PluginFleet.StepKeeps` | backend/pluginhost/link.go:64-94 | every step of start, crash, restart, retirement, rebasing and swap keeps generations strictly increasing in order of appearance through the link and only the newest client possibly up, and preserves what an earlier look at the link relied on |
| `PluginFleet.MarkUpKeeps` | backend/pluginhost/process.go:481-498 | a restart stamps a generation above every earlier visible one, also during the upgrade window |
| `PluginFleet.RebaseKeeps` | backend/pluginhost/process.go:516-523 | setting the base after the old instance is retired restamps the new client and touches no visible one |
| `PluginFleet.SwapKeeps` | backend/pluginhost/link.go:89-94 | when the retirement order was followed the swap is always possible and the new client lies above all visible ones |
| `PluginFleet.RetireKeeps` | backend/pluginhost/process.go:276-288 | stop, detach and fail leave the old instance unable to hand out a client or to start again |
| `PluginSession.SessionsReachTheirIssuer` | backend/pluginhost/remote.go:91-151 | in every interleaving of crashes, restarts, hot swaps and gated calls, a frame with a session id went to the client that issued it to that driver, and the id is no other driver's there |
| `PluginSession.ComparedIsIssuer` | backend/pluginhost/remote.go:139-152 | the second generation check succeeds only on the very client that issued the session |
| `PluginSession.StaleExactlyWhenReplaced` | backend/pluginhost/remote.go:64-70 | a held session is stale if and only if its issuer is no longer the newest client of the link; generations seen are strictly increasing |
| `PluginSession.ConnectedMeansUsable` | backend/pluginhost/remote.go:72-89 | what IsConnected reports is a session issued by the client that is current and up |
| `PluginSession.StepKeeps` | backend/pluginhost/remote.go:242-269 | every step of a connect, read, write, close or of the plugin keeps the session invariant |
| `PluginSession.ConnectsTo` | backend/pluginhost/remote.go:98-121 | an undisturbed connect stores the id it was given together with the generation of the client that gave it |
| `PluginSession.OverlapMisdirects` | backend/pluginhost/remote.go:125-159 | without the device gate a read that overlaps a reconnect of the same driver can send its old id to a process where it is another driver's session |
| `PluginSession.GateIsNeededExactly` | backend/pluginhost/remote.go:124-159 | sessions reach their issuer in every interleaving if and only if calls on one driver are kept apart |
| `PluginUse.ConnectMakesReady` | backend/pluginhost/remote.go:91-122 | an undisturbed connect behind the gate leaves the driver connected with a session it can use |
| `PluginUse.UseReachesPlugin` | backend/pluginhost/remote.go:124-184 | a read or write on a fresh session sends its id to the current client once and takes over what the answer says about the connection |
| `PluginUse.NoAnswerDisconnects` | backend/pluginhost/remote.go:153-184 | without an answer the driver counts as disconnected |
| `PluginUse.UpgradeCompletes` | backend/pluginhost/link.go:64-94 | from any state a hot swap can be carried through: the new client is up, one generation above all the old process reached |
| `RemoteDriver.Driver.CloseSession` | backend/pluginhost/remote.go:243-269 | the session is forgotten in any case; the close frame goes out exactly to a client of the stored generation while the link is up |
| `RemoteDriver.Driver.Connect` | backend/pluginhost/remote.go:91-122 | success stores id, flag and the issuing client's generation; failure leaves no session; an old session is released only to its own generation |
| `RemoteDriver.Driver.Use` | backend/pluginhost/remote.go:124-184 | a frame goes out exactly when the session is held, fresh and of the acquired client's generation; the answer's connected flag is authoritative, no answer means disconnected |
| `PluginProcess.Process.MarkUp` | backend/pluginhost/process.go:481-498 | the new client is current and carries the generation the process reports, one above the last |
| `PluginProcess.Process.SetEpochBase` | backend/pluginhost/process.go:516-523 | after rebasing, the current client still carries the generation the process reports |
| `PluginProcess.Process.MarkDown` | backend/pluginhost/process.go:526-541 | the client is failed; count and wait are reset only after a long enough life |
| `PluginProcess.Process.RecordFail` | backend/pluginhost/process.go:544-560 | one failure advances count and wait as specified and ends supervision beyond the limit |
| `PluginProcess.WaitsDouble` | backend/pluginhost/process.go:543-560 | in a row of failures the waits double from the minimum to the maximum |
| `PluginProcess.Process.Retire` | backend/pluginhost/process.go:276-288 | a retired process has no client and its last one is down, a start that slipped in included |
| `PluginProcess.Link.RetireAndSwap` | backend/pluginhost/link.go:89-94 | the new instance lies strictly above every generation the old one ever reached, and its client is stamped accordingly |
| `ReplyCheck.CheckReply` | backend/pluginhost/remote.go:188-213 | a reply is accepted exactly when requested and returned ids agree as multisets; otherwise the first unknown or repeated id, or a wrong count, is named |
| `ReplyCheck.CountAsked` | backend/pluginhost/remote_writable.go:92-95 | the outstanding count of each id is how often it was asked for |
| `PluginClient.OwnReplyOnly` | backend/pluginhost/client.go:141-155 | a call only ever consumes a frame with its own id, and no frame reaches two calls |
| `PluginReplies.ReplyReachesCaller` | backend/pluginhost/client.go:141-155 | a frame with the id of a waiting call is taken off the table, handed over and answers exactly that call |
| `PluginReplies.NoReplyIsLost` | backend/pluginhost/client.go:136-155 | as long as the connection has not failed no registered call is ever cut off from its reply |
| `PluginClient.DispatchNeverBlocks` | backend/pluginhost/client.go:136-155 | whatever became of the caller, the frame being delivered finds room in its channel |
| `PluginClient.NobodyHangs` | backend/pluginhost/client.go:244-279 | from any reachable failed connection, however the run goes on, an unfinished call has a step of its own enabled until it takes one, and that one ends it |
| `PluginClient.StepKeeps` | backend/pluginhost/client.go:226-302 | registration, sending, arrival, late delivery, timeout, cancellation and failure all keep the table and the channels consistent |
| `PluginClient.CancelsAreNoEvidence` | backend/pluginhost/client.go:257-273 | cancelled calls alone never count towards a stuck plugin |
| `PluginReplies.StreakIsTimeouts` | backend/pluginhost/client.go:257-302 | until a call is answered the evidence for a stuck plugin is exactly the number of calls that timed out, and an answer clears it |
| `PluginRegistry.Registries.RegisterDrivers` | backend/pluginhost/adapter_driver.go:77-99 | accepted exactly when no name is refused; otherwise the state is what the roll back from the first refused one leaves |
| `PluginRegistry.RefusalRestoresExactly` | backend/pluginhost/adapter_driver.go:89-97 | a refused registration leaves the drivers as before if and only if the refused name is not one the plugin itself had just registered |
| `PluginRegistry.AllOrNothing` | backend/pluginhost/adapter_driver.go:77-99 | all protocols are accepted exactly when nobody holds their names and none is named twice |
| `PluginRegistry.AcceptsExactly` | backend/pluginhost/adapter_driver.go:54-101 | a plugin is accepted exactly when scope and names are free and no protocol is named twice |
| `PluginRegistry.RefusedLeavesNothing` | backend/pluginhost/adapter_driver.go:51-99 | a refused plugin leaves the registries as they were if and only if the scope was refused or the first refused name is not an earlier one of its own |
| `PluginRegistry.Registries.Register` | backend/pluginhost/adapter_driver.go:54-101 | scope first, then drivers, undone on refusal, for any metadata: the state is exactly the specified one, with what a repeated name leaves behind |
| `PluginRegistry.Registries.Unregister` | backend/pluginhost/adapter_driver.go:107-112 | exactly the plugin's names and scope go |
| `PluginRegistry.RemovedThenAdded` | backend/pluginhost/upgrade.go:229-234 | taking out what is described frees exactly what putting it back needs, and puts it back as it was |
| `PluginRegistry.RollBackExactly` | backend/pluginhost/upgrade.go:226-236 | after a refused upgrade the registries equal the old ones if and only if the refusal came from outside and the old metadata names no protocol twice |
| `PluginRegistry.Registries.Reregister` | backend/pluginhost/upgrade.go:221-237 | for any old and new metadata: accepted exactly when the new version is acceptable without the old one, then describing exactly the new metadata; otherwise restored under the exact condition of RollBackExactly |
| `PluginUpgrade.SameSignature` | backend/pluginhost/upgrade.go:85-114 | the comparison by size and lookup decides equality of the registration fingerprints |
| `PluginUpgrade.FingerprintExactly` | backend/pluginhost/upgrade.go:63-83 | fingerprints are equal exactly when scope, types and type map are and the same drivers would be registered |
| `PluginUpgrade.SameSignatureDescribes` | backend/pluginhost/upgrade.go:221-239 | with equal fingerprints the untouched registries describe the new version |
| `PluginUpgrade.NeedsTaskRebuild` | backend/pluginhost/upgrade.go:127-142 | the loop decides whether as many protocols remain and each is as before |
| `PluginUpgrade.RebuildExactly` | backend/pluginhost/upgrade.go:116-142 | for any metadata, repeated names included, an upgrade that gets as far as the comparison misses no change; a rebuild without need happens exactly when the number of entries differs or the new metadata contradict themselves |
| `PluginUpgrade.RebuildForChangeOnly` | backend/pluginhost/upgrade.go:116-142 | with every name given once a rebuild is asked for exactly when the protocol set or a capability changed, and then the fingerprints differ too |
| `PluginUpgrade.RepeatedNameSpoilsRollBack` | backend/pluginhost/upgrade.go:221-237 | after a version taken over under an unchanged fingerprint, a refused upgrade is undone if and only if that version names no protocol twice and the refusal came from outside |
| `PluginScan.SecondScanIsIdle` | backend/pluginhost/manager.go:497-607 | a scan of an unchanged directory starts no process, changes nothing and asks for no refresh, whatever failed before |
| `PluginScan.VisitKeepsExactly` | backend/pluginhost/manager.go:519-578 | a visit leaves the registries describing exactly the loaded plugins if and only if it is clean: nothing refused, or refused from outside with the old metadata naming no protocol twice |
| `PluginScan.DistinctScanIsClean` | backend/pluginhost/manager.go:485-608 | as long as nobody names a protocol twice every visit of every scan is clean |
| `PluginScan.ScanKeepsExact` | backend/pluginhost/manager.go:581-603 | after every scan of clean visits a name or scope is registered by a plugin exactly when that plugin is loaded and declares it |
| `PluginScan.FreeExactly` | backend/pluginhost/adapter_driver.go:60-99 | what a plugin needs is free exactly when neither the gateway nor a loaded plugin holds its scope or one of its names |
| `PluginScan.VisitIsLocal` | backend/pluginhost/manager.go:519-578 | a visit looks at and changes the records of its own path only |
| `PluginScan.NewFileLoadsExactly` | backend/pluginhost/manager.go:563-603 | a new file ends the scan loaded if and only if it describes itself without repeating a name and at its visit neither the gateway, nor an earlier file, nor any plugin loaded before, vanished or not, holds its scope or a name; otherwise it is remembered as failed |
| `PluginScan.RenamedPluginIsStranded` | backend/pluginhost/manager.go:563-603 | in every scan a new file that declares something of a plugin whose own file has vanished is refused and remembered as failed |
| `PluginScan.FreeAfterScan` | backend/pluginhost/manager.go:597-603 | after the scan what vanished holds nothing: a plugin is acceptable unless the gateway or something still loaded is in its way |
| `PluginScan.SuppressedStays` | backend/pluginhost/manager.go:563-564 | what is remembered as failed stays unloaded through every scan that finds it unchanged |
| `PluginVisits.SpawnsExactly` | backend/pluginhost/manager.go:519-578 | a process is started exactly for a file that has not failed in this version and is new or, with hot upgrade on, replaced by other content |
| `PluginVisits.LoadsExactly` | backend/pluginhost/manager.go:664-702 | a new file is loaded exactly when accepted, otherwise remembered as failed |
| `PluginVisits.UpgradesExactly` | backend/pluginhost/upgrade.go:186-279 | a replaced file takes over exactly when it describes itself and its fingerprint is unchanged or its registration is accepted; otherwise the old version stays and the new one is remembered as failed |
| `PluginVisits.TouchedIsNoted` | backend/pluginhost/upgrade.go:198-213 | same content under new attributes: only the attributes are noted |
| `PluginVisits.RefreshesExactly` | backend/pluginhost/manager.go:577-606 | a rebuild of the collection task is asked for exactly when a plugin was loaded or upgraded to other protocols |
| `PluginScan.PluginHost.VisitFile` | backend/pluginhost/manager.go:519-578 | loading and upgrading through the registries, step by step, with fingerprint comparison and roll back, comes to the specified visit: record, memory of failures, registries and request for a refresh |
| `PluginScan.PluginHost.ScanOnce` | backend/pluginhost/manager.go:485-608 | every candidate is visited, what is gone is unloaded, and a refresh is asked for exactly after a load, an unload or an upgrade that calls for a rebuild |
| `Spool.SqliteSpool.InsertMany` | backend/push/spool.go:125-160 | rows are appended in order under growing ids and the counter stays exact |
| `Spool.SqliteSpool.FetchOldest` | backend/push/spool.go:162-205 | the oldest rows in insertion order, at most the limit |
| `Spool.SqliteSpool.DeleteBatch` | backend/push/spool.go:225-242 | exactly the listed rows go, and the counter follows what was really deleted |
| `Spool.SqliteSpool.DeleteOldest` | backend/push/spool.go:244-270 | exactly the oldest rows go |
| `Spool.WithoutPrefix` | backend/push/spool.go:225-270 | deleting the ids of a prefix leaves exactly the suffix |
| `Drain.WindowStops` | backend/push/drain.go:150-201 | one drained window deletes a prefix, in order, and on failure names the head of what is left |
| `Drain.RoundConserves` | backend/push/drain.go:38-105 | what leaves the cache in a round and what stays make up what was there, in id order |
| `Drain.DrainTerminates` | backend/push/drain.go:38-105 | with poison detection at most twice the rows plus one rounds empty a fixed cache and every batch leaves once, in id order |
| `Drain.NoInnocentDropped` | backend/push/drain.go:74-102 | over any run with arrivals and trims between rounds, a batch is dropped only when the write of that one batch has just been rejected; a pending poison id implies narrow mode |
| `Drain.VerdictsJustified` | backend/push/drain.go:51-100 | whatever trimming, arrivals and storage do to the cache, in the middle of a window too: with whatever rows are fetched, a batch is judged poison only when the write of that one batch has just been rejected |
| `Drain.VerdictsTrue` | backend/push/drain.go:51-100 | and against a downstream that refuses exactly payloads with a bad batch, only bad batches are judged poison and only good ones delivered |
| `Drain.RoundIsJudged` | backend/push/drain.go:66-99 | an undisturbed round decides exactly as the loop does on the rows it has fetched |
| `DrainPayloads.PayloadsAreRight` | backend/push/drain.go:150-189 | over any run every payload was built batch by batch with what the builder takes and the row limit allows, was written unless empty, and is recorded as that very write was answered |
| `DrainPayloads.FetchedPayloadsAreRight` | backend/push/drain.go:150-189 | the same whatever happens to the cache under the windows |
| `DrainPayloads.HonestEach` | backend/push/drain.go:155-189 | event by event: each batch of a payload was taken by the builder behind those before it and kept the row limit, and the event is the answer of its write |
| `DrainPayloads.WindowTiles` | backend/push/drain.go:155-168 | the groups of a window are consecutive pieces of it, each closed only by narrow mode, a conflict or the row limit |
| `DrainPayloads.GroupIsRight` | backend/push/drain.go:155-168 | a group holds exactly what joins: every batch in it was taken within the limit, and the next one stops it |
| `Drain.NarrowingSortsExactly` | backend/push/drain.go:22-36 | against a downstream that refuses exactly payloads with a bad batch, everything dropped is bad and everything delivered good |
| `Drain.PolicySafeExactly` | backend/push/drain.go:22-36 | a policy never drops an innocent batch if and only if it narrows whenever it detects poison |
| `Drain.GroupedPolicyDropsInnocent` | backend/push/tdengine/v3/tdengineChannel.go:47-53 | poison detection without narrowing drops a good batch at the head of a bad group |
| `Drain.DrainWorker.CollectGroup` | backend/push/drain.go:155-178 | the loop computes the specified group, which GroupIsRight shows to be what the builder and the row limit allow and no less |
| `Drain.DrainWorker.Drain` | backend/push/drain.go:150-201 | the loop over groups computes the specified window and deletes exactly its prefix |
| `Drain.DrainWorker.DrainOnce` | backend/push/drain.go:59-103 | one pass of the loop is one specified round |
| `Drain.DrainWorker.DrainUntilEmpty` | backend/push/drain.go:38-105 | over a cache nobody else touches the loop ends, empty, with every row accounted for |
| `OutboxRuns.NothingLost` | backend/push/outbox.go:246-491 | in any interleaving, counted by any weights, what was handed over is in queue, cache, buffers, hands or the record of departures |
| `OutboxRuns.DropCountExact` | backend/push/outbox.go:315-319 | in any interleaving the drop counter is the number of batches pushed out of a full buffer, refused without a cache or deleted as poison, plus the verdicts that deleted nothing; trimmed, storage-refused and empty-payload batches are not in it |
| `OutboxRuns.CacheDropsNothing` | backend/push/outbox.go:246-278 | with a cache, as long as no more was handed over than its buffer takes, no batch is dropped in any interleaving, whatever the downstream refuses |
| `OutboxRuns.NothingTrimmedBelowCapacity` | backend/push/outbox.go:469-477 | as long as fewer batches were handed over than the cache may hold, none is trimmed |
| `OutboxRuns.TrimsOnlyAtCapacity` | backend/push/outbox.go:469-477 | trimming takes the oldest rows, at most 16, exactly when the tick is due and the cache is at its limit |
| `OutboxRuns.FlushDecides` | backend/push/writer.go:86-113 | an accepted window is recorded as delivered, a refused one is dropped and counted without a cache, and with one stays whole and in order in the worker's hands on its way there, with nothing recorded or counted |
| `OutboxRuns.RefusedBatchIsCached` | backend/push/writer.go:106-113 | a refused batch can be followed into the cache, with nothing dropped |
| `OutboxRuns.AcceptedBatchIsDelivered` | backend/push/writer.go:86-105 | a batch handed over on a live connection can be followed to its delivery |
| `OutboxRuns.OrderlyShutdownKeepsAll` | backend/push/outbox.go:184-215 | after producers stopped, Close, workers gone and Wait, in that order, no batch is in memory |
| `OutboxRuns.RunInOrder` | backend/push/outbox.go:401-429 | every run in that order keeps the shutdown invariant of workers and write loop |
| `OutboxRuns.LateBatchIsStranded` | backend/push/outbox.go:197-202 | out of that order a batch can stay in the queue for ever |
| `OutboxRuns.ShutdownSafeExactly` | backend/push/outbox.go:197-202 | no shutdown leaves a batch in memory if and only if the documented order is kept |
| `Outbox.EnqueueConserves` | backend/push/outbox.go:246-278 | each step of Enqueue moves, keeps or counts its batch |
| `Outbox.PutConserves` | backend/push/outbox.go:378-399 | each step of SpoolEnqueue moves, keeps or counts its batch |
| `Outbox.FlushConserves` | backend/push/writer.go:86-113 | a flushed window is delivered, forgotten as empty, dropped or handed to the cache, all of it |
| `Outbox.TrimConserves` | backend/push/outbox.go:469-477 | what trimming removes is recorded, nothing else changes |
| `Outbox.WorkerConserves` | backend/push/writer.go:43-81 | each step of a worker keeps its batches accounted for |
| `Outbox.WriteLoopConserves` | backend/push/outbox.go:406-491 | each step of the write loop, one-by-one fallback included, keeps its batches accounted for |
| `OutboxCalls.PutKeepsNewest` | backend/push/outbox.go:375-399 | undisturbed, the buffer ends up with the new batch last and at most the oldest lost and counted |
| `OutboxCalls.EnqueueRoutes` | backend/push/outbox.go:246-278 | the steps of Enqueue, undisturbed, come to the route of each case |
| `OutboxCalls.Channel.Enqueue` | backend/push/outbox.go:246-278 | the route of a batch for every connection, cache and queue state, and that it is what the steps come to |
| `OutboxCalls.Channel.SpoolEnqueue` | backend/push/outbox.go:378-399 | one whole call equals the steps it is made of |
| `OutboxCalls.Channel.CollectSpoolBatch` | backend/push/outbox.go:433-443 | queued batches join the buffer in order up to the merge limit |
| `OutboxCalls.Channel.InsertMany` | backend/push/outbox.go:463-491 | trim as due, then append, in order |
| `OutboxCalls.Channel.DrainSpoolCh` | backend/push/outbox.go:446-457 | the buffer ends empty and the cache holds a suffix of what cache and buffer held |
| `Writer.AggregateWriter.Accept` | backend/push/writer.go:68-79 | a conflicting batch flushes first; a full window is flushed at once |
| `Writer.AggregateWriter.Run` | backend/push/writer.go:31-81 | the windows written concatenate to exactly what was received, in order; none holds what the builder would not combine, and none is closed before it is full or what comes next does not fit, except once for every interval |
| `Change.ChangeTracker.Filter` | backend/push/change.go:113-146 | the loop lets through and records exactly what the filter specification says |
| `Change.PassesExactly` | backend/push/change.go:101-142 | a record passes exactly when its point is new, a fact changed, or the keepalive has run |
| `Change.FilterIsInvisible` | backend/push/change.go:101-146 | a receiver of what passes knows the same facts as a receiver of everything |
| `Change.FilterIsLocal` | backend/push/change.go:55-63 | filtering one device and group leaves the memory of all others alone |
| `Change.ChangeTracker.Reset` | backend/push/change.go:154-158 | after a reset every point counts as new |
| `PushEngine.SuppressionIsInvisible` | backend/push/engine.go:257-340 | after any run of pushes, refreshes, switches, stops, every active channel knows for each accepted point the facts it would know without suppression; its batches are non-empty, at most 500 and of one device and group |
| `PushEngine.ResentExactlyWhenDue` | backend/push/engine.go:324-339 | at any place of any bucket a channel takes, a record goes out exactly when its point is new since the last reset, a fact differs from what the channel has by then, or the keepalive has run since the channel last got it; what goes out is delivered in order |
| `PushEngine.NeverResentEarly` | backend/push/change.go:101-146 | over any run of pushes, refreshes and settings in which nothing is forgotten and the channel stays, unchanged facts about a point reach it no earlier than the smallest keepalive after it last got that point, and not at all with the keepalive off |
| `PushEngine.RepeatsAreApart` | backend/push/change.go:101-146 | the same for any two successive deliveries of one point with equal facts in the stream of a channel |
| `PushEngine.RefreshKeeps` | backend/push/engine.go:419-456 | a refresh with a new or rebuilt channel under suppression forgets what was delivered, a mere removal does not; a channel keeps running exactly when its signature is unchanged, and starts empty otherwise |
| `PushEngine.ToggleKeeps` | backend/push/engine.go:99-108 | switching suppression back on forgets what was delivered, any other switch does not |
| `PushEngine.SplitKeepsAll` | backend/push/engine.go:342-385 | slicing neither loses, repeats, reorders nor mixes records |
| `PushCalls.PushAdds` | backend/push/engine.go:306-339 | the new batches of an accepted device and group are exactly the slices of its records that pass, however the buckets are dispatched |
| `PushCalls.PushedRecords` | backend/push/engine.go:333-338 | their records concatenate to the accepted subsequence in original order |
| `PushCalls.Bucketize` | backend/push/engine.go:288-297 | each bucket holds its records in order, every bucket is listed once |
| `PushOrder.SelectKeepsOrder` | backend/push/engine.go:288-297 | a bucket is the subsequence of the input that belongs to it, in the order of the input |
| `PushOrder.LastWordArrives` | backend/push/engine.go:257-340 | after any run and a push that covers the input, every channel knows about every point it accepts what the input says last about it, suppressed or not |
| `PushOrder.UnwantedIsNotNoted` | backend/push/engine.go:309-322 | a bucket no channel takes changes nothing |
| `PushCalls.SortBuckets` | backend/push/engine.go:298-304 | the dispatch order is strictly increasing by device, then group |
| `PushCalls.SplitBatches` | backend/push/engine.go:344-385 | the slicing loop computes the specified slices |
| `PushCalls.PushService.PushRecords` | backend/push/engine.go:257-340 | one push dispatches every bucket of the input exactly once, in sorted order |
| `Ipv4.CarryAddsOne` | backend/devicescan/targets.go:280-291 | the byte carry adds one modulo 2^32 |
| `Ipv4.NextIP` | backend/devicescan/targets.go:281-291 | the next address, wrapping after the last |
| `Ipv4.MaskingIsBitwise` | backend/devicescan/targets.go:273-276 | the arithmetic masking of a byte is the bitwise one |
| `Ipv4.ContainsIsRange` | backend/devicescan/targets.go:245 | membership by mask is membership in a range of 2^(32-prefix) addresses |
| `Ipv4.BroadcastOf` | backend/devicescan/targets.go:268-278 | the broadcast address is the last of the range |
| `Targets.ExpandTargetsPage` | backend/devicescan/targets.go:150-265 | exactly the requested page of one fixed virtual list, with total, next offset and truncation flag |
| `Targets.Pager.WalkHosts` | backend/devicescan/targets.go:244-256 | the carry walk emits the hosts of a subnet in order until the page is full |
| `Targets.HostsAreTheSubnet` | backend/devicescan/targets.go:146-149 | the host targets are the addresses of the subnet but the network and broadcast ones |
| `TargetList.ListExactly` | backend/devicescan/targets.go:124-148 | the targets are exactly the broadcast addresses and hosts of the subnets that the mode asks for, every broadcast before every host |
| `TargetList.SubnetsInOrder` | backend/devicescan/targets.go:137-139 | within a kind the subnets come in their order, each in one piece |
| `Targets.RequestedIsLength` | backend/devicescan/targets.go:68-78 | the announced total is the length of the list if and only if no /0 network is scanned host by host |
| `Targets.PagesCoverTheList` | backend/devicescan/targets.go:137-144 | following the offsets the calls announce, while they say there is more, yields the whole virtual list once and in order if and only if no /0 network is scanned host by host, for every page size a configuration allows |
| `Schedule.StartsWithinRounds` | backend/devicescan/engine.go:434-452 | with c slots job i starts within i/c budgets, for every completion order |
| `Schedule.StageWithinEstimate` | backend/devicescan/engine.go:366-374 | a stage whose jobs keep their budget is over by its estimate |
| `Schedule.BatchWithinEstimate` | backend/devicescan/engine.go:376-393 | both stages are over by the announced bound whenever it is below the saturation cap |
| `Schedule.BoundIsReached` | backend/devicescan/engine.go:361-374 | for any number of jobs, slots and any budget the bound is attained by jobs that use their whole budget |
| `ScanJob.DoneMeansEvaluated` | backend/devicescan/engine.go:547-657 | every target before the current batch has been evaluated; a done job has evaluated its batch, and one with nothing remaining everything |
| `ScanJob.SnapshotAddsUp` | backend/devicescan/job.go:190-218 | in every terminal snapshot scanned total plus remaining is the number requested |
| `ScanJob.StaleContinueReportsDone` | backend/devicescan/engine.go:585-626 | every scan that has targets has a run in which a continuation that waited for a replaced batch makes the job report done with its batch and nothing evaluated |
| `ScanJob.DoneIsRightExactly` | backend/devicescan/engine.go:585-626 | done means that the batch and all before it were evaluated, in every run, if and only if continuations see the end of the current batch or there is nothing to scan |
| `ScanJob.TerminalStands` | backend/devicescan/engine.go:495-507 | until the next continuation a terminal state stands, and after a cancellation nothing is counted, evaluated or found any more, whatever probes and dials still return |
| `ScanJob.StepKeeps` | backend/devicescan/engine.go:459-507 | every step of dials, probes, stages, finish, cancel and continue keeps counters, phases and state consistent |
| `ScanJob.ContinueHasTargets` | backend/devicescan/engine.go:618-636 | whenever something remains the next batch is non-empty |
| `ScanJob.KeyIsExact` | backend/devicescan/job.go:167-174 | two devices share a key exactly when host, port and unit agree, whatever the host text |
| `ScanJob.NoDuplicateDevices` | backend/devicescan/job.go:151-174 | the result list only grows and never lists a host, port and unit twice, across batches |
| `ScanResults.ProbeListsWhatItFound` | backend/devicescan/engine.go:480-485 | after a probe that was not cancelled every device found is listed under its key: the first report of each key not seen before, in order, and nothing else is added |
| `ScanResults.SeenStaysListed` | backend/devicescan/job.go:167-174 | in every run every key counted as seen belongs to a listed device |
| `ScanResults.DialDecides` | backend/devicescan/prefilter.go:69-89 | a target is judged dead exactly when its own dial was refused and the job goes on; a dial that succeeds, or fails for a reason of the gateway, sends it on to the probe |
| `ScanResults.NobodyIsLeftOut` | backend/devicescan/prefilter.go:40-105 | when no dial is refused by its target, a done scan has probed every target of its batch |
| `ScanResults.BroadcastsAreSpared` | backend/devicescan/prefilter.go:53-56 | broadcast targets are never dialled or judged dead, in any run |
| `ScanResults.ScanCanFinish` | backend/devicescan/engine.go:434-507 | undisturbed, a scan without a first stage probes its whole batch and is done |
| `ScanResults.AcceptedDevices` | backend/devicescan/engine.go:480-485 | what a report adds to the list are the first reports of its new keys, in the order of the report |
| `ScanCalls.ScanRecord.constructor` | backend/devicescan/engine.go:308-359 | expanding the subnets gives the first page of their virtual list, and the job that starts with it |
| `ScanCalls.PlanScan` | backend/devicescan/engine.go:329-333 | a scan is refused exactly when its subnets yield no target |
| `ScanCalls.ScanRecord.AcceptReply` | backend/devicescan/engine.go:480-485 | the loop over a report computes the specified acceptance, which AcceptedDevices shows to list the first report of every new key in order |
| `ScanCalls.ScanRecord.ProbeOne` | backend/devicescan/engine.go:459-493 | a probe counts and reports only while the job is not cancelled |
| `ScanCalls.ScanRecord.NextStart` | backend/devicescan/engine.go:618-631 | a batch cancelled midway is restarted, otherwise the next one starts behind it |
| `ScanCalls.ScanRecord.ContinueJob` | backend/devicescan/engine.go:599-657 | the second half of Continue, page expansion included, is the specified step; it refuses only a running job, and whenever something remains the batch it starts is a non-empty page at the right place of the list |
| `ScanCalls.BatchIsPage` | backend/devicescan/engine.go:632-642 | the targets of a batch are the page of the virtual list at its start, and the next batch starts where it ends |
| `Collector.CallsNeverOverlap` | backend/collector/task.go:797-806 | no two of connect, read and write on one driver are ever under way together, and none once it is closed |
| `Collector.CloseInterruptsNothing` | backend/collector/task.go:527-557 | a driver is closed only while no poll and no control call is under way |
| `Collector.OneConnectionPerDevice` | backend/collector/engine.go:117-144 | at no time, refresh included, have two tasks the same device connected |
| `Collector.PollsDoNotPileUp` | backend/collector/task.go:756-787 | a group never has two polls of one device under way |
| `Collector.StepKeeps` | backend/collector/control.go:43-86 | scheduling, gates, control calls, refresh and stop keep locks, gates, stages and drivers consistent |
| `CollectorProgress.PollIsMade` | backend/collector/task.go:756-806 | a poll that is due reaches its driver while nobody holds the device, and gives the gate back |
| `CollectorProgress.ThreadEnds` | backend/collector/task.go:797-806 | whatever a call is doing, it can end by steps of its own |
| `CollectorProgress.RefreshCompletes` | backend/collector/engine.go:117-144 | a stop or refresh that has begun can be carried through: every old driver is closed, the new task runs with nothing connected |
| `Alarm.TrackersRefineSpec` | backend/alarm/tracker.go:188-277 | over all runs of reports, resets, clears and restarts a target has an active row, and then exactly one, precisely when the debounce specification says so |
| `Alarm.SuccessRefines` | backend/alarm/tracker.go:201-225 | after any success nothing is active, rows left by an earlier process included |
| `Alarm.FailureRefines` | backend/alarm/tracker.go:227-243 | a failure makes the alarm active exactly at the threshold and never adds a second row |
| `Alarm.FailureWrites` | backend/alarm/tracker.go:227-243 | a failure writes nothing below the threshold, one active row or a new time at it, and after that a new time at most every five seconds |
| `Alarm.SuccessWrites` | backend/alarm/tracker.go:201-225 | a success closes a judged alarm with one record of recovery, an inherited one silently, and otherwise writes nothing |
| `Alarm.ReportTouchesOnlyOwn` | backend/alarm/tracker.go:19-27 | rows of other targets and other target types are never changed |
| `Alarm.RecoversOnlyWhatWasRaised` | backend/alarm/tracker.go:205-208 | a recovery is recorded exactly for a target judged abnormal, which then had one active row |
| `Alarm.SharedTypeBreaks` | backend/alarm/tracker.go:22-27 | with two trackers of one target type, for any threshold, a success told to the second clears the alarm of the first, which is then never active again however often it fails |
| `Alarm.LateClearIsSafeExactly` | backend/alarm/tracker.go:259-277 | the clearing half of an administrative clear is harmless if and only if the target has not been judged abnormal again meanwhile |
| `Alarm.Tracker.Report` | backend/alarm/tracker.go:188-244 | one report is one specified step |
| `Alarm.Tracker.ReportFailed` | backend/alarm/tracker.go:227-243 | a failed report touches, raises or only counts |
| `Alarm.Tracker.Reset` | backend/alarm/tracker.go:248-252 | only the memory of the target goes |
| `Alarm.Tracker.ClearActive` | backend/alarm/tracker.go:259-262 | memory and active row of the target go |
| `Alarm.Table.UpdateActive` | backend/alarm/tracker.go:264-277 | exactly the active rows of the target are updated |
| `RuntimeConfig.Manager.constructor` | backend/runtimecfg/manager.go:144-182 | loading publishes the effective values of the table, unknown and invalid rows ignored |
| `RuntimeConfig.Manager.Update` | backend/runtimecfg/manager.go:350-400 | success and each error occur exactly under their conditions; on success table, snapshot and all components of the key hold the new value; on every failure the snapshot is the old one, a reload agrees with it exactly when the compensating write succeeded or the value is the same, and the components are back exactly when the second pass got past those that had changed |
| `RuntimeConfig.Manager.Reset` | backend/runtimecfg/manager.go:403-451 | likewise for the way back to the default, which does nothing without an override |
| `RuntimeConfig.Manager.Change` | backend/runtimecfg/manager.go:383-396 | publishing and applying a change: refused exactly when a component refuses, otherwise all components of the key and no others take the value |
| `RuntimeConfig.Manager.Rollback` | backend/runtimecfg/manager.go:480-497 | a compensated failure leaves table and snapshot agreeing on the old values |
| `RuntimeConfig.Manager.Apply` | backend/runtimecfg/manager.go:464-474 | components take the value in order up to the first refusal |
| `RuntimeConfig.DecodeEncode` | backend/runtimecfg/manager.go:202-236 | exactly the literals of the type and the listed options decode, and what is accepted is read back as the same value |
| `RuntimeConfig.ComponentsRestoredExactly` | backend/runtimecfg/manager.go:476-497 | after a refused change all components are back at the old value if and only if the second pass got past those that had changed |
| `RateLimit.Limiter.Allow` | backend/service/controlRateLimit.go:51-85 | admitted exactly when no limit would be exceeded; a refused request charges nothing |
| `RateLimit.Limiter.Prune` | backend/service/controlRateLimit.go:111-121 | once a minute, or when the table is too large, exactly the windows older than two minutes go; otherwise nothing happens |
| `RateLimit.AnyMinuteBounded` | backend/service/controlRateLimit.go:12-20 | with pruning at any requests no window ever holds more than its limit and no interval shorter than a minute lets through more than twice the limit |
| `RateLimit.PruningIsInvisible` | backend/service/controlRateLimit.go:109-121 | with time that never runs backwards pruning changes no decision |
| `RateLimit.KeysAreExact` | backend/service/controlRateLimit.go:87-90 | windows are shared only by the same device or point, as device ids hold no NUL |
| `RateLimit.DuplicatePointOverruns` | backend/service/controlRateLimit.go:66-83 | for any limits, windows and admitted request the window of a point grows by how often the request names it, so it overruns exactly when that exceeds the room it had, and never when no point is named twice |
| `RateLimit.AdmittedExactly` | backend/service/controlRateLimit.go:51-85 | a request that names no point twice is admitted exactly when every window it is charged to keeps its limit |
| `RateLimit.WindowLastsAMinute` | backend/service/controlRateLimit.go:87-107 | a window counts for one minute from its first charge and then starts again |
| `EntityCode.UniqueEntityCode` | backend/service/entityCode.go:108-123 | the result is the base or carries the first suffix that is free, found after at most one more suffix than there are taken codes; it is at most 64 characters and well formed when the base is |
| `EntityCode.CandidatesDiffer` | backend/service/entityCode.go:112-118 | different suffixes give different candidates, trimming included |
| `Decimal.ReadsBack` | backend/service/entityCode.go:113 | the digits of a suffix are its number in decimal |
| `EntityCode.GeneratedEntityCode` | backend/service/entityCode.go:67-104 | the loop and the trimming compute the specified code |
| `EntityCode.FoldedByPieces` | backend/service/entityCode.go:72-88 | folding works piece by piece wherever no run of other characters is split |
| `EntityCode.FoldedPieces` | backend/service/entityCode.go:73-87 | letters, digits and underscores stay, a run of anything else becomes one dash |
| `EntityCode.GeneratedFrom` | backend/service/entityCode.go:90-103 | the code is the trimmed folding, behind the prefix unless it starts with a letter, cut to 64; a name without letters or digits gives the fallback |
| `EntityCode.GeneratedIsNormal` | backend/service/entityCode.go:62-104 | whatever the name, the code is well formed, lower case and tidy |
| `EntityCode.NormalIsKept` | backend/service/entityCode.go:67-104 | a code already in that form is left alone |
| `EntityCode.GeneratedTwice` | backend/service/entityCode.go:62-104 | generating is idempotent: a generated code taken as a name gives itself |

## Left out

General

- HTTP controllers, transfer objects, dependency wiring, logging and translations: no invariant of their own.
- Sockets, process execution, SQL text, JSON and hashing: replaced by parameters and abstract tables.
- PluginFleet, PluginSession, PluginClient, Collector and Outbox are on values, as step systems, because their properties are about interleavings; update in place and aliasing are captured in RemoteDriver, PluginProcess and OutboxCalls only.
- 64-bit wrap-around of generation numbers, correlation ids and row ids.

Plugin sessions and connection

- Ping and connection tests, which use no session.
- A plugin process is taken never to give out the same session id twice, nor zero, to any driver.
- The payload encodings of requests and replies, and their results beyond the ids.
- PluginProcess.Process.Retire: a start that slips in is one parameter; the waits on the supervisor are not timed.

Registries and scan

- The SDK is not part of this model: its registries are maps that refuse names and scopes in use, spelling taken literally, and accept a scope whose name list repeats a name; the type registry, which has no roll back, and the SDK's validation of metadata are not included.
- File hashing, symbolic links, the creation of protocol rows and the debouncing of refreshes.

Push

- Outbox: a batch trimmed while a replay has already fetched it can also be delivered; what is proved is that a batch is never missing, and not that it is in one place.
- The spool capacity as a bound: a trim removes at most 16 rows per merged insert of up to 64.
- The MQTT publish loop, the reconnect loop, the payload formats of the channels and the observation callbacks.
- Drain: for what leaves the cache, arrivals and trims fall between rounds and storage works; the verdicts hold whatever happens to the cache in between (VerdictsJustified).  The connection is up, so waiting does not appear.
- Writer: when the flush timer fires is a parameter.
- PushEngine: a push, a refresh and a switch are one atomic step each; pushes directed by the trigger or time-series rules bypass the filter and are not included; which groups a channel accepts is fixed for one instance of the channel.

Scan

- Expiry of jobs, stopping of the whole engine, the list of error texts, elapsed times, and the choice of subnets from the interfaces.
- IPv6 subnets: the interface filter (`backend/discovery/netif.go:107-131`) keeps them away from the expansion.
- Schedule: the time dispatching itself takes.

Collector

- Reconnect backoff, throttled logging, turning values into records, splitting them into batches, and the checksum watcher.
- Uses of a driver that do not go through the gate: connection tests and other direct lookups.

Alarm, configuration, limiter, codes

- Alarm: texts, notifications, storage failures, and clears by the alarm service while a target is abnormal.
- RuntimeConfig: JSON texts only as far as decoding tells them apart; a failing first listing, List and PendingRestart.
- RateLimit: the texts of refusals.
- EntityCode: trimming and lower-casing of Unicode happen before.
- EntityCode.UniqueEntityCode: the suffix is a 64-bit integer in the source, so the number of taken codes is bounded by that.
