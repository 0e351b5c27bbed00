# RavenDB on Azure: trace listener and worker role, modelled in Dafny

This project models the two sequential cores of the RavenDB-on-Azure worker.

**The table-storage trace listener** (`AzureDiagnostics/TableStorageTraceListener.cs`):
- `Write` and `WriteLine` collect text in a per-thread buffer.
- Every structured trace call turns the buffer into a `LogEntry`. It strips one trailing line terminator and drops empty messages.
- The entry's partition key is the timestamp shifted right by 30 bits, zero-padded to 10 digits. Its row key is the timestamp zero-padded to 19 digits.
- Entries wait in a pending list. `Flush` runs a one-time initialization gate, then hands all pending entries to the table service as one batch.

**The RavenDB worker role** (`RavenDbWorker/WorkerRole.cs`):
- Life cycle: mount a cloud drive, start an embedded document database and its HTTP server on that drive, then write the replication destinations document.
- The destinations document lists one `{"Url":"http://<address>:<port>/"}` object per other role instance that has a "Replication" endpoint.
- On stop, it disposes the server and the database and unmounts the drive.
- It reconfigures replication when the role topology changes.

Files:
- `decimal.dfy`: the "D<width>" integer rendering, its inverse, and ordinal string order.
- `log_entry.dfy`: the `LogEntry` record, the newline stripping, and the two keys.
- `trace_listener.dfy`: the listener as a class.
  - The thread-static buffer becomes a map from thread to text, held by the listener (see `## Left out` for the sharing between instances).
  - The pending list, the gate and the table client are fields.
  - Every batch whose save was started is kept in `saves`.
  - A ghost history `recorded` and the invariant `Valid()` state that every recorded entry is in exactly one place, in order.
- `replication.dfy`: the destinations document, as a specification function and as the loop that builds it. It also holds a reader for the document and the properties of both.
- `lifecycle.dfy`: the role's state as a value (`Node`), with one function per life-cycle step and the properties of those steps.
- `worker_role.dfy`: the role as a class whose fields the steps update in place. Each method is proved to produce the state its `Lifecycle` function gives.

Where a library call can throw, the operation takes a parameter that says whether and where it throws. Examples are `InitFault`, `MountOutcome`, `RavenFault`, `StopFault` and the `writeFails` flag. Each such parameter also covers the path where that call fails, not only the one where it succeeds.

The model follows the code as written, including four places a reader might not expect:
- `OnStart` traces a failure and still returns `base.OnStart()`; it does not rethrow.
- `StartRaven`'s rollback disposes only the server and the database. The drive stays mounted.
- `StopRaven` has no handler per disposal. The first disposal that throws ends the teardown, and `OnStop` traces the error.
- `GetReplicationDestinations` writes the destination objects back to back, with no comma between them. The model keeps this as written (`Replication.ObjectsAppend`, `Replication.ThreeInstances`).

## Model

| member | source | states |
|---|---|---|
| Decimal.Padded | AzureDiagnostics/TableStorageTraceListener.cs:180-181 | the rendering is all digits, and its length is the requested width or the number's own digit count, whichever is larger |
| Decimal.Format | AzureDiagnostics/TableStorageTraceListener.cs:180-181 | a non-negative number renders as digits only; a negative one as '-' followed by digits |
| Decimal.ValueOfFixed | AzureDiagnostics/TableStorageTraceListener.cs:180-181 | a fixed-width rendering parses back to the number |
| Decimal.PaddedRoundTrip | AzureDiagnostics/TableStorageTraceListener.cs:180-181 | every zero-padded rendering parses back to the number it renders |
| Decimal.PaddedExactWidth | AzureDiagnostics/TableStorageTraceListener.cs:180-181 | a number below 10^width renders as exactly `width` digits |
| Decimal.FixedOrder | AzureDiagnostics/TableStorageTraceListener.cs:180-181 | equal-width renderings compare ordinally exactly as the numbers compare (both directions) |
| LogEntries.StripNewLine | AzureDiagnostics/TableStorageTraceListener.cs:168-171 | a buffer ending in the terminator loses exactly that one terminator; any other buffer is kept verbatim |
| LogEntries.StripNewLineInvertsWriteLine | AzureDiagnostics/TableStorageTraceListener.cs:168-171 | text written with one terminator comes back unchanged, even text that itself ends in a terminator |
| LogEntries.StripNewLineEmpty | AzureDiagnostics/TableStorageTraceListener.cs:168-176 | the message is dropped exactly when the buffer is empty or holds only one terminator |
| LogEntries.RowKeyRoundTrip | AzureDiagnostics/TableStorageTraceListener.cs:181 | for a non-negative timestamp the row key is 19 digits and parses back to the timestamp |
| LogEntries.PartitionKeyRoundTrip | AzureDiagnostics/TableStorageTraceListener.cs:180 | for a non-negative timestamp the partition key is 10 digits and parses back to `timestamp >> 30` |
| LogEntries.RowKeyOrder | AzureDiagnostics/TableStorageTraceListener.cs:181 | row keys sort as strings exactly as the timestamps sort as numbers |
| LogEntries.PartitionKeyOrder | AzureDiagnostics/TableStorageTraceListener.cs:180 | a later timestamp never gets an earlier-sorting partition key; two keys are equal exactly when `t >> 30` is |
| LogEntries.TraceEventType.Level | AzureDiagnostics/TableStorageTraceListener.cs:183 | the entry's level is the numeric value of `System.Diagnostics.TraceEventType` for the event type |
| LogEntries.RowKey | AzureDiagnostics/TableStorageTraceListener.cs:181 | the row key is the timestamp rendered with format "D19"; its properties are `RowKeyRoundTrip` and `RowKeyOrder` |
| LogEntries.PartitionKey | AzureDiagnostics/TableStorageTraceListener.cs:180 | the partition key is `timestamp >> 30` rendered with format "D10"; its properties are `PartitionKeyRoundTrip` and `PartitionKeyOrder` |
| LogEntries.NewEntry | AzureDiagnostics/TableStorageTraceListener.cs:178-190 | the entry built for a non-empty message, with the two keys, level, id, process, thread and role; its properties are `NewEntryKeys` |
| LogEntries.NewEntryKeys | AzureDiagnostics/TableStorageTraceListener.cs:178-190 | an entry keeps the message and the timestamp; for a non-negative timestamp its keys are fixed-width digit strings that parse back to the timestamp |
| TraceListener.RecordKeepsPartition | AzureDiagnostics/TableStorageTraceListener.cs:192-195 | appending a new entry to the pending list keeps every recorded entry in exactly one place, in order |
| TraceListener.DrainKeepsPartition | AzureDiagnostics/TableStorageTraceListener.cs:99-103 | moving the whole pending list into a new batch (none when it is empty) loses and duplicates nothing |
| TraceListener.TableStorageTraceListener.constructor | AzureDiagnostics/TableStorageTraceListener.cs:51-54 | a new listener keeps its connection setting, has no buffers, no pending entries, no saves and an open gate |
| TraceListener.TableStorageTraceListener.Default | AzureDiagnostics/TableStorageTraceListener.cs:46-49 | the parameterless constructor uses the default diagnostics connection setting |
| TraceListener.TableStorageTraceListener.Write | AzureDiagnostics/TableStorageTraceListener.cs:64-72 | only the calling thread's buffer changes, and it gains the message unchanged (a missing buffer counts as empty) |
| TraceListener.TableStorageTraceListener.WriteLine | AzureDiagnostics/TableStorageTraceListener.cs:74-82 | only the calling thread's buffer changes, and it gains the message plus one terminator |
| TraceListener.TableStorageTraceListener.AppendEntry | AzureDiagnostics/TableStorageTraceListener.cs:158-196 | the thread's buffer is emptied; an empty stripped message leaves the pending list alone, any other appends exactly one entry for it at the end; the invariant (no loss, no duplication) is kept |
| TraceListener.TableStorageTraceListener.TraceEvent | AzureDiagnostics/TableStorageTraceListener.cs:126-142 | the text the base class writes joins the buffer and the entry is completed with the call's id and level |
| TraceListener.TableStorageTraceListener.TraceData | AzureDiagnostics/TableStorageTraceListener.cs:114-124 | as `TraceEvent`, for the rendered data |
| TraceListener.TableStorageTraceListener.TraceTransfer | AzureDiagnostics/TableStorageTraceListener.cs:144-148 | as `TraceEvent`, always at the Transfer level |
| TraceListener.TableStorageTraceListener.Initialize | AzureDiagnostics/TableStorageTraceListener.cs:150-156 | the gate closes exactly when account, client and table all succeed; a client created before a failing table creation remains |
| TraceListener.TableStorageTraceListener.Flush | AzureDiagnostics/TableStorageTraceListener.cs:84-112 | initialization runs only while the gate is open and completes at most once, leaving the table client and the table as `Initialize` does; once the gate is closed they are untouched; a failing initialization changes no entries; otherwise every pending entry moves, in order, into one new batch (none for an empty list) and the pending list ends empty |
| TraceListener.RecordBeforeFirstFlush | AzureDiagnostics/TableStorageTraceListener.cs:84-112 | a line traced on a fresh listener is the whole of the first flush's batch, and nothing stays pending |
| TraceListener.FragmentsFormOneLine | AzureDiagnostics/TableStorageTraceListener.cs:64-82 | `Write(a)`, `WriteLine(b)` and a trace call record one entry `a + b`; another thread's buffer stays empty |
| Replication.Url | RavenDbWorker/WorkerRole.cs:214-216 | a destination URL is `http://`, the peer's address, `:`, the current instance's Raven port in decimal, and `/`; used by `UrlsAt` |
| Replication.Peers | RavenDbWorker/WorkerRole.cs:206-217 | the addresses of the instances other than the current one that have a replication endpoint, in enumeration order; characterised by `PeersMembership`, `SelfExcluded` and `OtherInstance` |
| Replication.Skipped | RavenDbWorker/WorkerRole.cs:206-224 | the ids of the other instances without a replication endpoint, in enumeration order; characterised by `SelfExcluded`, `OtherInstance` and `EveryOtherInstanceAccounted` |
| Replication.Objects | RavenDbWorker/WorkerRole.cs:212-213 | one `{"Url":"..."}` object per URL, joined with no separator; read back by `ParseObjectsRoundTrip` |
| Replication.DestinationsDocument | RavenDbWorker/WorkerRole.cs:203-227 | the fixed header, the destination objects and the closing `]}`; read back by `DocumentRoundTrip` and built by the loop `GetReplicationDestinations` |
| Replication.GetReplicationDestinations | RavenDbWorker/WorkerRole.cs:203-227 | the loop produces exactly the specified document and reports exactly the skipped instances |
| Replication.PeersAppend | RavenDbWorker/WorkerRole.cs:206-224 | the destinations of a concatenated instance list are the concatenation of the parts' destinations |
| Replication.SkippedAppend | RavenDbWorker/WorkerRole.cs:206-224 | the same holds for the reported instances |
| Replication.SelfExcluded | RavenDbWorker/WorkerRole.cs:206-207 | the current instance contributes neither a destination nor a report, wherever it is listed and whatever its endpoints |
| Replication.OtherInstance | RavenDbWorker/WorkerRole.cs:208-224 | another instance with an endpoint contributes exactly its address at its position; one without is reported at its position and the build goes on |
| Replication.PeersMembership | RavenDbWorker/WorkerRole.cs:206-217 | an address is a destination if and only if some other instance advertises it |
| Replication.EveryOtherInstanceAccounted | RavenDbWorker/WorkerRole.cs:206-224 | destinations plus reports number exactly the instances other than the current one |
| Replication.ObjectsAppend | RavenDbWorker/WorkerRole.cs:212-213 | the rendered objects of two lists are joined with nothing in between |
| Replication.UrlsAt | RavenDbWorker/WorkerRole.cs:214-216 | each URL is built from its own peer's address and the current instance's port |
| Replication.ParseObjectsRoundTrip | RavenDbWorker/WorkerRole.cs:212-213 | a run of destination objects reads back to its URL list |
| Replication.DocumentRoundTrip | RavenDbWorker/WorkerRole.cs:205-226 | the document starts with the fixed header and reads back to exactly the destinations' URLs, in order, on the current port |
| Replication.ThreeInstances | RavenDbWorker/WorkerRole.cs:203-227 | with the current instance and two peers, the destinations are exactly the two peers in order, with adjacent objects |
| Lifecycle.DataDirectory | RavenDbWorker/WorkerRole.cs:131-133 | the data directory starts with the mount path, ends in `\Data\` and adds one separator only when the path lacks one |
| Lifecycle.DataDirectoryIgnoresTrailingSeparator | RavenDbWorker/WorkerRole.cs:131-133 | a mount path with or without a trailing separator gives the same directory |
| Lifecycle.VhdName | RavenDbWorker/WorkerRole.cs:272 | the page blob name is the instance id followed by `.vhd` |
| Lifecycle.VhdNameInjective | RavenDbWorker/WorkerRole.cs:272 | distinct instances get distinct blob names |
| Lifecycle.RemoveFirst | RavenDbWorker/WorkerRole.cs:253 | `Trace.Listeners.Remove(name)` on the listener names; characterised by `RemoveFirstAbsent` and `RemoveFirstAt` |
| Lifecycle.RemoveFirstAbsent | RavenDbWorker/WorkerRole.cs:253 | removing an absent listener name changes nothing |
| Lifecycle.RemoveFirstAt | RavenDbWorker/WorkerRole.cs:253 | removing a present name takes out exactly its first occurrence and keeps the order of the rest |
| Lifecycle.EnableThenDisable | RavenDbWorker/WorkerRole.cs:239-254 | enabling and then disabling the listener restores the original list |
| Lifecycle.SetupTraceListener | RavenDbWorker/WorkerRole.cs:233-256 | the listener setup step on the role state; its cases are `SetupTraceListenerCases`, and `Worker.WorkerRole.SetupTraceListener` is proved equal to it |
| Lifecycle.MountCloudDrive | RavenDbWorker/WorkerRole.cs:258-281 | the drive is untouched when the failure comes before the drive object, created but unmounted when mounting throws, and mounted at the returned path on success; `Worker.WorkerRole.MountCloudDrive` is proved equal to it |
| Lifecycle.ConfigurationFor | RavenDbWorker/WorkerRole.cs:113-139 | the engine configuration: the data directory of the mount path, the parsed access mode (Get when unparsable), compression, storage type, port and plugins directory |
| Lifecycle.StartRaven | RavenDbWorker/WorkerRole.cs:106-171 | the engine start step with its rollback; its properties are `StartRavenFrame` and `StartRavenAllOrNothing`, and `Worker.WorkerRole.StartRaven` is proved equal to it |
| Lifecycle.SetupReplication | RavenDbWorker/WorkerRole.cs:185-201 | the replication step; its properties are `SetupReplicationReplaces` and `SetupReplicationIdempotent`, and `Worker.WorkerRole.SetupReplication` is proved equal to it |
| Lifecycle.Start | RavenDbWorker/WorkerRole.cs:30-56 | `OnStart` on the role state: the steps in order, stopping at the first that throws, tracing it, subscribing only when all succeed; its cases are `StartStopsAtTraceSetup`, `StartStopsAtMount`, `StartFailsAfterMount`, `StartFailsAtReplication` and `StartSucceeds` |
| Lifecycle.StartFailsAtReplication | RavenDbWorker/WorkerRole.cs:30-56 | when only the replication write throws, the failure is traced after the missing-endpoint reports, no subscription is made, no document changes, and database and server stay live because nothing rolls them back |
| Lifecycle.SetupTraceListenerCases | RavenDbWorker/WorkerRole.cs:233-256 | a missing setting throws, an unparsable one changes nothing, true adds the listener, false removes one occurrence; nothing else changes |
| Lifecycle.StartRavenFrame | RavenDbWorker/WorkerRole.cs:106-171 | the drive, documents, listeners and subscription are never touched; on failure the database is cleared and the server is untouched or, if it failed to listen, cleared |
| Lifecycle.StartRavenAllOrNothing | RavenDbWorker/WorkerRole.cs:106-171 | from a clean node, either database and server run on the drive's data directory and port, or neither remains; the teardown lists the server (if it was created) before the database (if it was created) |
| Lifecycle.SetupReplicationReplaces | RavenDbWorker/WorkerRole.cs:185-201 | success (a live database and a committed write) stores exactly the new document under the destinations key and leaves every other key alone; failure changes no document; missing endpoints are traced either way |
| Lifecycle.SetupReplicationIdempotent | RavenDbWorker/WorkerRole.cs:192-198 | a second run with unchanged membership leaves the store as the first left it |
| Lifecycle.StartStopsAtTraceSetup | RavenDbWorker/WorkerRole.cs:30-56 | a missing trace setting skips every later step and is traced, not propagated |
| Lifecycle.StartStopsAtMount | RavenDbWorker/WorkerRole.cs:30-56 | a failed mount leaves database, server, documents and subscription as they were and is traced |
| Lifecycle.StartFailsAfterMount | RavenDbWorker/WorkerRole.cs:30-56 | a failed engine start leaves the drive mounted, nothing running, no document and no subscription, and is traced |
| Lifecycle.StartSucceeds | RavenDbWorker/WorkerRole.cs:30-56 | when every step succeeds, drive, database, server, destinations document and one subscription are all in place |
| Lifecycle.StopRaven | RavenDbWorker/WorkerRole.cs:173-183 | the unguarded disposals of server, database and drive, ending at the first that throws; `Worker.WorkerRole.StopRaven` is proved equal to it |
| Lifecycle.Stop | RavenDbWorker/WorkerRole.cs:71-83 | `OnStop` on the role state; its properties are `StopOrder`, `StopTraces` and `StopLeavesTheRest` |
| Lifecycle.StopRavenTeardown | RavenDbWorker/WorkerRole.cs:173-183 | each set component is disposed in turn (server, database, drive) unless its disposal throws, which ends the teardown |
| Lifecycle.TakeUntilSpec | RavenDbWorker/WorkerRole.cs:176-181 | what is taken is a prefix of the set components that stops just before the failing one, or all of them when it is not set |
| Lifecycle.TeardownPrefix | RavenDbWorker/WorkerRole.cs:176-181 | disposing in order and stopping at the throwing disposal equals taking the set components until the failing one |
| Lifecycle.StopOrder | RavenDbWorker/WorkerRole.cs:173-183 | what `OnStop` tears down is exactly the set components, in the order server, database, drive, up to the first disposal that throws |
| Lifecycle.StopTraces | RavenDbWorker/WorkerRole.cs:71-83 | `OnStop` traces one error exactly when a disposal it reached threw |
| Lifecycle.StopLeavesTheRest | RavenDbWorker/WorkerRole.cs:173-183 | with everything running, the components after the throwing disposal stay as they were |
| Lifecycle.Changed | RavenDbWorker/WorkerRole.cs:85-100 | `RoleEnvironmentChanged` on the role state; its cases are `ChangedOnlyOnTopology` |
| Lifecycle.ChangedOnlyOnTopology | RavenDbWorker/WorkerRole.cs:85-100 | a change set without a topology change changes nothing; with one, replication is set up again and a failure is traced |
| Worker.AnyTopologyChange | RavenDbWorker/WorkerRole.cs:91 | the scan finds a topology change if and only if the list holds one |
| Worker.WorkerRole.constructor | RavenDbWorker/WorkerRole.cs:22-24 | a new role has no drive, database or server |
| Worker.WorkerRole.SetupTraceListener | RavenDbWorker/WorkerRole.cs:233-256 | changes only the listener list, as `Lifecycle.SetupTraceListener` gives |
| Worker.WorkerRole.MountCloudDrive | RavenDbWorker/WorkerRole.cs:258-281 | changes only the drive field, as `Lifecycle.MountCloudDrive` gives |
| Worker.WorkerRole.StartRaven | RavenDbWorker/WorkerRole.cs:106-171 | changes only database, server and teardown, as `Lifecycle.StartRaven` gives |
| Worker.WorkerRole.SetupReplication | RavenDbWorker/WorkerRole.cs:185-201 | the delete-then-put transaction takes effect only on commit, as `Lifecycle.SetupReplication` gives |
| Worker.WorkerRole.OnStart | RavenDbWorker/WorkerRole.cs:30-56 | always returns true and leaves the role as `Lifecycle.Start` gives |
| Worker.WorkerRole.StopRaven | RavenDbWorker/WorkerRole.cs:173-183 | changes only server, database, drive and teardown, as `Lifecycle.StopRaven` gives |
| Worker.WorkerRole.OnStop | RavenDbWorker/WorkerRole.cs:71-83 | leaves the role as `Lifecycle.Stop` gives |
| Worker.WorkerRole.RoleEnvironmentChanged | RavenDbWorker/WorkerRole.cs:85-100 | leaves the role as `Lifecycle.Changed` gives |

## Left out

- Azure storage I/O is reduced to success or failure. This covers the storage account, the blob container, the drive cache, drive creation and mounting, the table client, table creation, and the asynchronous batch save. A started save is recorded as a batch handed off; its completion and retries are not modelled.
- RavenDB internals are reduced to a live, disposed or null handle and a key-to-document map. This covers `DocumentDatabase`, `HttpServer.Init`/`StartListening`, `NonAdminHttp` and background workers. `RavenJObject.Parse` is not modelled: the document is stored as text, and a rejected parse is one cause of `writeFails`.
- Configuration and endpoint lookups in `RoleEnvironment` are inputs (`Environment`), not calls. So are `Enum.TryParse` and `Boolean.Parse`. A lookup that throws is one of the named fault points.
- Threads and locks are not modelled. The per-thread buffers are a map keyed by the caller's thread id, and the locks become sequential code. `IsThreadSafe` is not modelled.
- `Run` is not modelled. It is an endless sleep loop with no effect.
- Informational and warning trace messages are not modelled; only `Trace.TraceError` reports are kept. Also not modelled: `ServicePointManager.DefaultConnectionLimit`, `Trace.AutoFlush`, and `CloudStorageAccount.SetConfigurationSettingPublisher`.
- The text the base `TraceListener` writes for `TraceEvent`, `TraceData` and `TraceTransfer` is not visible. It is the parameter `written`, appended before the entry is completed.
- The listener `SetupTraceListener` adds is recorded by name only. It is not linked to an instance of the listener class.
- LogEntries.RowKeyRoundTrip, LogEntries.PartitionKeyRoundTrip, LogEntries.RowKeyOrder and LogEntries.PartitionKeyOrder cover non-negative timestamps only. Negative timestamps are rendered, with a '-' sign, but their keys are not proved to parse back or sort.
- `EndsWith` in the listener and in the data-directory rule is modelled as ordinal. The source uses the culture-sensitive overload; for "\r\n" and "\\" the two agree on ordinary text.
- Integer widths are unbounded (`int`), except that the event timestamp is kept within the 64-bit range. This applies to the port, the process id and the event id.
- TraceListener.TableStorageTraceListener.Write: the message buffer is a thread-static field shared by every listener instance on a thread; the model gives each instance its own buffers, so it describes a process with one listener instance, which is what `SetupTraceListener` creates. Two instances that receive the same `Write` (the first one's trace call taking both copies) are not modelled.
- Worker.WorkerRole.OnStart: a trace call that throws is not modelled. Once the listener is added, `Trace.AutoFlush` makes every `Trace` call run the listener's `Flush`, whose initialization can fail; a throwing `Trace.TraceInformation` inside a step, or a throwing `Trace.TraceError` in `OnStart`'s handler, which would escape `OnStart`, is outside the model. `ensures result` holds only under that assumption.
- Lifecycle.StartRaven: a `Dispose` that throws during the rollback is not modelled. The rollback's disposals are taken to succeed.
- Lifecycle.SetupReplication: writing to a database that is disposed rather than null is treated as a failed write.

