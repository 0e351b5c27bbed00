/** The node lifecycle of the RavenDB worker role (RavenDbWorker/WorkerRole.cs)
    as functions from one node state to the next.  Each step returns the new
    state and whether it completed or threw; the class in module `Worker`
    performs the same steps field by field and is proved against these.

    Calls into the Azure and RavenDB libraries are reduced to the resources
    they create and dispose (the cloud drive, the document database, the
    HTTP server), to the database's documents, and to the process-wide
    listener list and `Changed` subscription.  Where such a call can throw,
    the step takes a parameter that says whether (and where) it does. */
module Lifecycle {
  import opened Wrappers
  import opened Strings
  import Replication

  const ListenerName: string := "TableStorageTraceListener"
  const PluginsDirectory: string := "Plugins"

  // ---------------------------------------------------------------------
  // Pure pieces

  /** The database directory under the drive's mount path: `Data\` directly
      after a path that already ends in a separator, `\Data\` otherwise. */
  function DataDirectory(localPath: string): (dir: string)
    ensures StartsWith(dir, localPath)
    ensures EndsWith(dir, "\\Data\\")
    ensures |dir| == |localPath| + (if EndsWith(localPath, "\\") then 5 else 6)
  {
    if EndsWith(localPath, "\\") then localPath + "Data\\" else localPath + "\\Data\\"
  }

  /** With or without its trailing separator, a mount path gives the same
      data directory. */
  lemma DataDirectoryIgnoresTrailingSeparator(localPath: string)
    requires !EndsWith(localPath, "\\")
    ensures DataDirectory(localPath + "\\") == DataDirectory(localPath)
  {
    var p := localPath + "\\";
    assert p[|p| - 1..] == "\\";
    assert p + "Data\\" == localPath + "\\Data\\";
  }

  /** The page blob backing an instance's drive is named after the instance. */
  function VhdName(instanceId: string): (name: string)
    ensures EndsWith(name, ".vhd") && StartsWith(name, instanceId)
    ensures |name| == |instanceId| + 4
  {
    instanceId + ".vhd"
  }

  /** Distinct instances never share a drive. */
  lemma VhdNameInjective(a: string, b: string)
    requires a != b
    ensures VhdName(a) != VhdName(b)
  {
  }

  /** `Trace.Listeners.Remove(name)`: drops the first listener with that
      name, if any. */
  function RemoveFirst(listeners: seq<string>, name: string): seq<string> {
    if listeners == [] then []
    else if listeners[0] == name then listeners[1..]
    else [listeners[0]] + RemoveFirst(listeners[1..], name)
  }

  /** Position of the first occurrence of `x` in `xs`. */
  function IndexOf(xs: seq<string>, x: string): (k: nat)
    requires x in xs
    ensures k < |xs| && xs[k] == x && x !in xs[..k]
  {
    if xs[0] == x then 0 else 1 + IndexOf(xs[1..], x)
  }

  /** Removing an absent name leaves the list alone. */
  lemma {:induction false} RemoveFirstAbsent(listeners: seq<string>, name: string)
    requires name !in listeners
    ensures RemoveFirst(listeners, name) == listeners
  {
    if listeners != [] {
      RemoveFirstAbsent(listeners[1..], name);
    }
  }

  /** Removing a present name takes out exactly its first occurrence and
      keeps the order of the rest. */
  lemma {:induction false} RemoveFirstAt(listeners: seq<string>, name: string)
    requires name in listeners
    ensures var k := IndexOf(listeners, name);
      RemoveFirst(listeners, name) == listeners[..k] + listeners[k + 1..]
  {
    if listeners[0] != name {
      var rest := listeners[1..];
      RemoveFirstAt(rest, name);
      var k := IndexOf(rest, name);
      assert listeners[..k + 1] == [listeners[0]] + rest[..k];
      assert listeners[k + 2..] == rest[k + 1..];
    }
  }

  /** Enabling and then disabling the listener restores the list it
      started from. */
  lemma {:induction false} EnableThenDisable(listeners: seq<string>)
    requires ListenerName !in listeners
    ensures RemoveFirst(listeners + [ListenerName], ListenerName) == listeners
  {
    if listeners != [] {
      assert (listeners + [ListenerName])[1..] == listeners[1..] + [ListenerName];
      EnableThenDisable(listeners[1..]);
    }
  }

  // ---------------------------------------------------------------------
  // Inputs and state

  /** A configuration setting read as a bool: absent (the read throws),
      present but not "true"/"false", or parsed. */
  datatype BoolSetting = Missing | Unparsable | Parsed(value: bool)

  /** RavenDB's `AnonymousUserAccessMode`. */
  datatype AccessMode = AllAccess | GetAccess | NoAccess

  /** What `RoleEnvironment` reports to this instance. */
  datatype Environment = Environment(
    currentId: string,
    instances: seq<Replication.RoleInstance>,
    ravenPort: int,
    enableTraceListener: BoolSetting,
    /** `Enum.TryParse` of the "AnonymousUserAccessMode" setting. */
    accessMode: Option<AccessMode>,
    httpCompression: BoolSetting,
    storageTypeName: string)

  datatype RavenConfiguration = RavenConfiguration(
    dataDirectory: string,
    anonymousUserAccessMode: AccessMode,
    httpCompression: bool,
    defaultStorageTypeName: string,
    port: int,
    pluginsDirectory: string)

  /** `_database` or `_server`: null, a live object, or one that was disposed
      but not cleared. */
  datatype Handle = Null | Live(config: RavenConfiguration) | Disposed(config: RavenConfiguration)

  /** `_dataDrive`: null, or a drive for a page blob that is created but not
      mounted, mounted at a local path, or unmounted. */
  datatype Drive = NoDrive | Created(vhd: string) | Mounted(vhd: string, localPath: string) | Unmounted(vhd: string)

  datatype Component = Server | Database | DataDrive

  /** The errors the role traces. */
  datatype Report = OnStartError | OnStopError | ChangedError | MissingEndpoint(instanceId: string)

  /** A JSON document as the database stores it (`RavenJObject.Parse`). */
  datatype Document = Json(text: string)

  /** One entry of a `RoleEnvironmentChangedEventArgs.Changes` list. */
  datatype Change = TopologyChange | SettingChange(name: string)

  /** Where `MountCloudDrive` throws: before the drive object exists, after
      it exists but before it is mounted, or not at all. */
  datatype MountOutcome = FailsBeforeDrive | DriveFails | MountedAt(localPath: string)

  /** Where `StartRaven` throws: before the database is constructed
      (settings, port, HTTP reservation), in its constructor, while spinning
      its workers, in the server's constructor, in `Init`/`StartListening`,
      or not at all. */
  datatype RavenFault = NoRavenFault | FailsBeforeDatabase | DatabaseFails | WorkersFail | ServerFails | ListeningFails

  /** Which disposal in `StopRaven` throws, if one does. */
  datatype StopFault = NoStopFault | ServerDisposeFails | DatabaseDisposeFails | UnmountFails

  datatype StartFaults = StartFaults(mount: MountOutcome, raven: RavenFault, replicationFails: bool)

  datatype Node = Node(
    dataDrive: Drive,
    database: Handle,
    server: Handle,
    /** The database's documents. */
    documents: map<string, Document>,
    /** Names in the process-wide `Trace.Listeners`. */
    listeners: seq<string>,
    /** How many `RoleEnvironment.Changed` subscriptions the role made. */
    changedHandlers: nat,
    /** Disposals and unmounts that completed, in order. */
    teardown: seq<Component>,
    reports: seq<Report>)

  /** A step's new state, and whether it completed (false: it threw). */
  datatype Step = Step(node: Node, ok: bool)

  function Reported(n: Node, r: Report): Node {
    n.(reports := n.reports + [r])
  }

  // ---------------------------------------------------------------------
  // Steps

  function SetupTraceListener(n: Node, setting: BoolSetting): Step {
    match setting
    case Missing => Step(n, false)
    case Unparsable => Step(n, true)
    case Parsed(enable) =>
      if enable then Step(n.(listeners := n.listeners + [ListenerName]), true)
      else Step(n.(listeners := RemoveFirst(n.listeners, ListenerName)), true)
  }

  function MountCloudDrive(n: Node, currentId: string, outcome: MountOutcome): Step {
    match outcome
    case FailsBeforeDrive => Step(n, false)
    case DriveFails => Step(n.(dataDrive := Created(VhdName(currentId))), false)
    case MountedAt(path) => Step(n.(dataDrive := Mounted(VhdName(currentId), path)), true)
  }

  /** The outer handler of `StartRaven`: dispose and clear `_database` if set. */
  function DisposeDatabase(n: Node): Node {
    if n.database == Null then n else n.(database := Null, teardown := n.teardown + [Database])
  }

  function ConfigurationFor(localPath: string, env: Environment): RavenConfiguration
    requires env.httpCompression.Parsed?
  {
    RavenConfiguration(
      DataDirectory(localPath), env.accessMode.GetOr(GetAccess), env.httpCompression.value,
      env.storageTypeName, env.ravenPort, PluginsDirectory)
  }

  function StartRaven(n: Node, env: Environment, fault: RavenFault): Step {
    if !n.dataDrive.Mounted? || !env.httpCompression.Parsed? || fault == FailsBeforeDatabase || fault == DatabaseFails then
      Step(DisposeDatabase(n), false)
    else
      var config := ConfigurationFor(n.dataDrive.localPath, env);
      var withDatabase := n.(database := Live(config));
      if fault == WorkersFail || fault == ServerFails then
        Step(DisposeDatabase(withDatabase), false)
      else if fault == ListeningFails then
        Step(DisposeDatabase(withDatabase.(server := Null, teardown := withDatabase.teardown + [Server])), false)
      else
        Step(withDatabase.(server := Live(config)), true)
  }

  function MissingReports(ids: seq<string>): (reports: seq<Report>)
    ensures |reports| == |ids|
    ensures forall i :: 0 <= i < |ids| ==> reports[i] == MissingEndpoint(ids[i])
  {
    if ids == [] then [] else [MissingEndpoint(ids[0])] + MissingReports(ids[1..])
  }

  /** Builds the destinations (tracing each instance without an endpoint),
      then deletes, puts and commits the document in one transaction. */
  function SetupReplication(n: Node, env: Environment, writeFails: bool): Step {
    var json := Replication.DestinationsDocument(env.currentId, env.ravenPort, env.instances);
    var traced := n.(reports := n.reports + MissingReports(Replication.Skipped(env.currentId, env.instances)));
    if !n.database.Live? || writeFails then Step(traced, false)
    else Step(traced.(documents := n.documents[Replication.DestinationsKey := Json(json)]), true)
  }

  /** `OnStart`: the steps in order, stopping at the first that throws; the
      failure is traced and swallowed (the method still returns
      `base.OnStart()`). */
  function Start(n: Node, env: Environment, faults: StartFaults): Node {
    var s1 := SetupTraceListener(n, env.enableTraceListener);
    if !s1.ok then Reported(s1.node, OnStartError) else
    var s2 := MountCloudDrive(s1.node, env.currentId, faults.mount);
    if !s2.ok then Reported(s2.node, OnStartError) else
    var s3 := StartRaven(s2.node, env, faults.raven);
    if !s3.ok then Reported(s3.node, OnStartError) else
    var s4 := SetupReplication(s3.node, env, faults.replicationFails);
    if !s4.ok then Reported(s4.node, OnStartError) else
    s4.node.(changedHandlers := s4.node.changedHandlers + 1)
  }

  // The three disposal stages below carry their frames as `ensures` only so
  // that `StopRavenTeardown` need not unfold them; they are solver hints, not
  // specifications.  What `OnStop` promises is stated by `StopOrder`,
  // `StopTraces` and `StopLeavesTheRest`.

  /** Disposes `_server` if set (it is not cleared). */
  function DisposeServer(n: Node): (r: Node)
    ensures r.teardown == n.teardown + (if n.server != Null then [Server] else [])
    ensures r.database == n.database && r.dataDrive == n.dataDrive
    ensures r.documents == n.documents && r.listeners == n.listeners && r.reports == n.reports
  {
    if n.server == Null then n else n.(server := Disposed(n.server.config), teardown := n.teardown + [Server])
  }

  /** Disposes `_database` if set (it is not cleared). */
  function DisposeDatabaseOnStop(n: Node): (r: Node)
    ensures r.teardown == n.teardown + (if n.database != Null then [Database] else [])
    ensures r.server == n.server && r.dataDrive == n.dataDrive
    ensures r.documents == n.documents && r.listeners == n.listeners && r.reports == n.reports
  {
    if n.database == Null then n else n.(database := Disposed(n.database.config), teardown := n.teardown + [Database])
  }

  /** Unmounts `_dataDrive` if set. */
  function UnmountDrive(n: Node): (r: Node)
    ensures r.teardown == n.teardown + (if n.dataDrive != NoDrive then [DataDrive] else [])
    ensures r.server == n.server && r.database == n.database
    ensures r.documents == n.documents && r.listeners == n.listeners && r.reports == n.reports
  {
    if n.dataDrive == NoDrive then n else n.(dataDrive := Unmounted(n.dataDrive.vhd), teardown := n.teardown + [DataDrive])
  }

  function StopRaven(n: Node, fault: StopFault): Step {
    if n.server != Null && fault == ServerDisposeFails then Step(n, false) else
    var a := DisposeServer(n);
    if a.database != Null && fault == DatabaseDisposeFails then Step(a, false) else
    var b := DisposeDatabaseOnStop(a);
    if b.dataDrive != NoDrive && fault == UnmountFails then Step(b, false) else
    Step(UnmountDrive(b), true)
  }

  /** `OnStop`: a throwing disposal is traced and swallowed. */
  function Stop(n: Node, fault: StopFault): Node {
    var s := StopRaven(n, fault);
    if s.ok then s.node else Reported(s.node, OnStopError)
  }

  predicate HasTopologyChange(changes: seq<Change>) {
    exists i :: 0 <= i < |changes| && changes[i].TopologyChange?
  }

  /** `RoleEnvironmentChanged`: reconfigure replication on a topology
      change; a failure is traced and swallowed. */
  function Changed(n: Node, env: Environment, changes: seq<Change>, writeFails: bool): Node {
    if !HasTopologyChange(changes) then n
    else
      var s := SetupReplication(n, env, writeFails);
      if s.ok then s.node else Reported(s.node, ChangedError)
  }

  // ---------------------------------------------------------------------
  // Properties

  /** The trace-listener setting: absent throws and changes nothing,
      unparsable changes nothing, true adds the listener, false removes
      the first listener with its name. */
  lemma SetupTraceListenerCases(n: Node, setting: BoolSetting)
    ensures var s := SetupTraceListener(n, setting);
      && s.ok == !setting.Missing?
      && s.node.(listeners := n.listeners) == n
      && (setting.Missing? || setting.Unparsable? ==> s.node.listeners == n.listeners)
      && (setting == Parsed(true) ==> s.node.listeners == n.listeners + [ListenerName])
      && (setting == Parsed(false) ==> multiset(s.node.listeners) == multiset(n.listeners) - multiset{ListenerName})
  {
    if setting == Parsed(false) {
      var xs := n.listeners;
      if ListenerName in xs {
        RemoveFirstAt(xs, ListenerName);
        var k := IndexOf(xs, ListenerName);
        assert xs == xs[..k] + [ListenerName] + xs[k + 1..];
      } else {
        RemoveFirstAbsent(xs, ListenerName);
      }
    }
  }

  /** `StartRaven` never touches the drive, the documents, the listeners,
      the subscription or the traces; whenever it throws, `_database` ends
      up null and `_server` is either untouched or, when the server it
      created failed to listen, cleared; when it completes, server and
      database are live on one configuration. */
  lemma StartRavenFrame(n: Node, env: Environment, fault: RavenFault)
    ensures var s := StartRaven(n, env, fault);
      && s.node.dataDrive == n.dataDrive
      && s.node.documents == n.documents
      && s.node.listeners == n.listeners
      && s.node.changedHandlers == n.changedHandlers
      && s.node.reports == n.reports
      && (!s.ok ==> s.node.database == Null)
      && (!s.ok ==> s.node.server == n.server || (fault == ListeningFails && s.node.server == Null))
      && (s.ok ==> s.node.server.Live? && s.node.server == s.node.database)
  {
  }

  /** From a node with neither database nor server, `StartRaven` either
      starts both on a configuration whose data directory lies under the
      mounted drive, or leaves neither allocated: the server, if it was
      created, is disposed before the database. */
  lemma StartRavenAllOrNothing(n: Node, env: Environment, fault: RavenFault)
    requires n.database == Null && n.server == Null
    ensures var s := StartRaven(n, env, fault);
      && s.ok == (n.dataDrive.Mounted? && env.httpCompression.Parsed? && fault == NoRavenFault)
      && (s.ok ==>
            s.node.database.Live? && s.node.server == s.node.database &&
            s.node.database.config.dataDirectory == DataDirectory(n.dataDrive.localPath) &&
            s.node.database.config.port == env.ravenPort &&
            s.node.teardown == n.teardown)
      && (!s.ok ==>
            s.node.database == Null && s.node.server == Null &&
            s.node.teardown == n.teardown +
              (if !n.dataDrive.Mounted? || !env.httpCompression.Parsed? || fault in {FailsBeforeDatabase, DatabaseFails} then []
               else if fault == ListeningFails then [Server, Database]
               else [Database]))
  {
    if !n.dataDrive.Mounted? || !env.httpCompression.Parsed? || fault == FailsBeforeDatabase || fault == DatabaseFails {
      assert StartRaven(n, env, fault) == Step(n, false);
    } else {
      var config := ConfigurationFor(n.dataDrive.localPath, env);
      var started := n.(database := Live(config));
      if fault == WorkersFail || fault == ServerFails {
        assert StartRaven(n, env, fault) == Step(n.(teardown := n.teardown + [Database]), false);
      } else if fault == ListeningFails {
        assert StartRaven(n, env, fault) == Step(n.(teardown := n.teardown + [Server] + [Database]), false);
      } else {
        assert StartRaven(n, env, fault) == Step(started.(server := Live(config)), true);
      }
    }
  }

  /** A successful `SetupReplication` replaces the destinations document,
      whatever it held, and leaves every other key alone; a failed one
      leaves the documents as they were.  It succeeds exactly when the
      database is live and the transaction goes through. */
  lemma SetupReplicationReplaces(n: Node, env: Environment, writeFails: bool)
    ensures var s := SetupReplication(n, env, writeFails);
      && s.ok == (n.database.Live? && !writeFails)
      && (s.ok ==> s.node.documents[Replication.DestinationsKey] ==
                     Json(Replication.DestinationsDocument(env.currentId, env.ravenPort, env.instances)))
      && (s.ok ==> forall key :: key != Replication.DestinationsKey ==>
                     (key in s.node.documents <==> key in n.documents) &&
                     (key in n.documents ==> s.node.documents[key] == n.documents[key]))
      && (!s.ok ==> s.node.documents == n.documents)
      && s.node.reports == n.reports + MissingReports(Replication.Skipped(env.currentId, env.instances))
  {
  }

  /** Reconfiguring twice with unchanged membership stores the same
      documents as reconfiguring once. */
  lemma SetupReplicationIdempotent(n: Node, env: Environment)
    ensures var once := SetupReplication(n, env, false).node;
      SetupReplication(once, env, false).node.documents == once.documents
  {
    var once := SetupReplication(n, env, false).node;
    if n.database.Live? {
      assert once.database == n.database;
      var key := Replication.DestinationsKey;
      var doc := Json(Replication.DestinationsDocument(env.currentId, env.ravenPort, env.instances));
      assert once.documents[key := doc] == once.documents;
    }
  }

  /** The trace-listener setting is absent: nothing after it runs. */
  lemma StartStopsAtTraceSetup(n: Node, env: Environment, faults: StartFaults)
    requires env.enableTraceListener.Missing?
    ensures Start(n, env, faults) == Reported(n, OnStartError)
  {
  }

  /** The drive cannot be mounted: the failure is traced and swallowed, and
      the database, the server, the documents and the subscription are
      as before. */
  lemma StartStopsAtMount(n: Node, env: Environment, faults: StartFaults)
    requires !env.enableTraceListener.Missing? && !faults.mount.MountedAt?
    ensures var r := Start(n, env, faults);
      && r.database == n.database && r.server == n.server
      && r.documents == n.documents && r.changedHandlers == n.changedHandlers
      && r.teardown == n.teardown
      && r.reports == n.reports + [OnStartError]
  {
  }

  /** The engine fails to start after the drive was mounted: no database or
      server remains allocated, the drive stays mounted (nothing unmounts
      it), no replication document is written, no subscription is made,
      and the failure is traced instead of propagated. */
  lemma StartFailsAfterMount(n: Node, env: Environment, faults: StartFaults)
    requires n.database == Null && n.server == Null
    requires !env.enableTraceListener.Missing? && faults.mount.MountedAt?
    requires !env.httpCompression.Parsed? || faults.raven != NoRavenFault
    ensures var r := Start(n, env, faults);
      && r.dataDrive == Mounted(VhdName(env.currentId), faults.mount.localPath)
      && r.database == Null && r.server == Null
      && r.documents == n.documents && r.changedHandlers == n.changedHandlers
      && r.reports == n.reports + [OnStartError]
  {
    var s1 := SetupTraceListener(n, env.enableTraceListener);
    var s2 := MountCloudDrive(s1.node, env.currentId, faults.mount);
    StartRavenAllOrNothing(s2.node, env, faults.raven);
  }

  /** Every step succeeds: the drive is mounted, database and server run
      on its data directory, the destinations document is written, the
      handler is subscribed once, and only missing endpoints are traced. */
  lemma StartSucceeds(n: Node, env: Environment, faults: StartFaults, path: string)
    requires n.database == Null && n.server == Null
    requires !env.enableTraceListener.Missing? && faults.mount == MountedAt(path)
    requires env.httpCompression.Parsed? && faults.raven == NoRavenFault && !faults.replicationFails
    ensures var r := Start(n, env, faults);
      && r.dataDrive == Mounted(VhdName(env.currentId), path)
      && r.database.Live? && r.server == r.database
      && r.database.config.dataDirectory == DataDirectory(path)
      && r.documents == n.documents[Replication.DestinationsKey :=
           Json(Replication.DestinationsDocument(env.currentId, env.ravenPort, env.instances))]
      && r.changedHandlers == n.changedHandlers + 1
      && r.teardown == n.teardown
      && r.reports == n.reports + MissingReports(Replication.Skipped(env.currentId, env.instances))
  {
    var s1 := SetupTraceListener(n, env.enableTraceListener);
    assert s1.ok && s1.node.(listeners := n.listeners) == n;
    var s2 := MountCloudDrive(s1.node, env.currentId, faults.mount);
    assert s2 == Step(s1.node.(dataDrive := Mounted(VhdName(env.currentId), path)), true);
    var config := ConfigurationFor(path, env);
    var s3 := StartRaven(s2.node, env, faults.raven);
    assert s3 == Step(s2.node.(database := Live(config), server := Live(config)), true);
    var s4 := SetupReplication(s3.node, env, faults.replicationFails);
    assert s4.ok;
  }

  /** Every step up to the engine start succeeds, but writing the
      destinations document throws: the failure is traced and swallowed,
      the subscription is not made, and the database and server stay live
      (nothing rolls them back). */
  lemma StartFailsAtReplication(n: Node, env: Environment, faults: StartFaults, path: string)
    requires n.database == Null && n.server == Null
    requires !env.enableTraceListener.Missing? && faults.mount == MountedAt(path)
    requires env.httpCompression.Parsed? && faults.raven == NoRavenFault && faults.replicationFails
    ensures var r := Start(n, env, faults);
      && r.dataDrive == Mounted(VhdName(env.currentId), path)
      && r.database.Live? && r.server == r.database
      && r.documents == n.documents
      && r.changedHandlers == n.changedHandlers
      && r.teardown == n.teardown
      && r.reports == n.reports + MissingReports(Replication.Skipped(env.currentId, env.instances)) + [OnStartError]
  {
    var s1 := SetupTraceListener(n, env.enableTraceListener);
    assert s1.ok && s1.node.(listeners := n.listeners) == n;
    var s2 := MountCloudDrive(s1.node, env.currentId, faults.mount);
    assert s2 == Step(s1.node.(dataDrive := Mounted(VhdName(env.currentId), path)), true);
    var config := ConfigurationFor(path, env);
    var s3 := StartRaven(s2.node, env, faults.raven);
    assert s3 == Step(s2.node.(database := Live(config), server := Live(config)), true);
    var s4 := SetupReplication(s3.node, env, faults.replicationFails);
    assert !s4.ok;
  }

  /** The components `StopRaven` finds set, in the order it disposes them. */
  function Present(n: Node): seq<Component> {
    Components(n.server != Null, n.database != Null, n.dataDrive != NoDrive)
  }

  /** The component whose disposal a fault makes throw. */
  function Failing(fault: StopFault): Option<Component> {
    match fault
    case NoStopFault => None
    case ServerDisposeFails => Some(Server)
    case DatabaseDisposeFails => Some(Database)
    case UnmountFails => Some(DataDrive)
  }

  /** The components of `present` before the first that equals `failing`. */
  function TakeUntil(present: seq<Component>, failing: Option<Component>): seq<Component> {
    if present == [] then []
    else if failing == Some(present[0]) then []
    else [present[0]] + TakeUntil(present[1..], failing)
  }

  /** What is taken is a prefix that stops just before the failing
      component, or the whole list when it does not occur. */
  lemma {:induction false} TakeUntilSpec(present: seq<Component>, failing: Option<Component>)
    ensures var done := TakeUntil(present, failing);
      && done <= present
      && (failing.Some? ==> failing.value !in done)
      && (failing.Some? && failing.value in present ==> |done| < |present| && present[|done|] == failing.value)
      && (failing.None? || failing.value !in present ==> done == present)
  {
    if present != [] && failing != Some(present[0]) {
      TakeUntilSpec(present[1..], failing);
      assert present == [present[0]] + present[1..];
    }
  }

  /** `OnStop` disposes the set components in the order server, database,
      drive; a throwing disposal ends the teardown there, and the remaining
      components stay as they were. */
  lemma StopOrder(n: Node, fault: StopFault)
    ensures Stop(n, fault).teardown == n.teardown + TakeUntil(Present(n), Failing(fault))
  {
    StopRavenTeardown(n, fault);
    TeardownPrefix(n.server != Null, n.database != Null, n.dataDrive != NoDrive, fault);
  }

  /** The components set, in disposal order, given which of them are set. */
  function Components(server: bool, database: bool, drive: bool): seq<Component> {
    (if server then [Server] else []) + (if database then [Database] else []) + (if drive then [DataDrive] else [])
  }

  /** Disposing in order and stopping at the one that throws is taking the
      set components until the failing one. */
  lemma TeardownPrefix(server: bool, database: bool, drive: bool, fault: StopFault)
    ensures var srv := if server then [Server] else [];
      var db := if database then [Database] else [];
      var drv := if drive then [DataDrive] else [];
      var afterDatabase := if drv != [] && fault == UnmountFails then [] else drv;
      var afterServer := if db != [] && fault == DatabaseDisposeFails then [] else db + afterDatabase;
      TakeUntil(Components(server, database, drive), Failing(fault)) ==
        (if srv != [] && fault == ServerDisposeFails then [] else srv + afterServer)
  {
    var srv := if server then [Server] else [];
    var db := if database then [Database] else [];
    var drv := if drive then [DataDrive] else [];
    var f := Failing(fault);
    assert Components(server, database, drive) == srv + (db + drv);
    TakeUntilAppend(srv, db + drv, f);
    TakeUntilAppend(db, drv, f);
    TakeUntilSmall(srv, f);
    TakeUntilSmall(db, f);
    TakeUntilSmall(drv, f);
  }

  /** The teardown `StopRaven` performs, stage by stage: each set component
      is disposed unless its disposal throws, which ends the teardown. */
  lemma StopRavenTeardown(n: Node, fault: StopFault)
    ensures var srv := if n.server != Null then [Server] else [];
      var db := if n.database != Null then [Database] else [];
      var drv := if n.dataDrive != NoDrive then [DataDrive] else [];
      var afterDatabase := if drv != [] && fault == UnmountFails then [] else drv;
      var afterServer := if db != [] && fault == DatabaseDisposeFails then [] else db + afterDatabase;
      Stop(n, fault).teardown == n.teardown + (if srv != [] && fault == ServerDisposeFails then [] else srv + afterServer)
  {
    var a := DisposeServer(n);
    var b := DisposeDatabaseOnStop(a);
    assert a.teardown + (if b.database != Null then [Database] else []) == b.teardown;
  }

  /** Taking until `failing` from a concatenation stops inside the first
      part when the component is there, and goes on into the second
      otherwise. */
  lemma {:induction false} TakeUntilAppend(xs: seq<Component>, ys: seq<Component>, failing: Option<Component>)
    ensures TakeUntil(xs + ys, failing) ==
      if failing.Some? && failing.value in xs then TakeUntil(xs, failing) else xs + TakeUntil(ys, failing)
  {
    if xs == [] {
      assert xs + ys == ys;
    } else {
      var zs := xs + ys;
      assert zs[0] == xs[0] && zs[1..] == xs[1..] + ys;
      TakeUntilAppend(xs[1..], ys, failing);
      if failing != Some(xs[0]) {
        assert xs == [xs[0]] + xs[1..];
        assert failing.Some? ==> (failing.value in xs <==> failing.value in xs[1..]);
      }
    }
  }

  lemma TakeUntilSmall(xs: seq<Component>, failing: Option<Component>)
    requires |xs| <= 1
    ensures TakeUntil(xs, failing) == if xs != [] && failing == Some(xs[0]) then [] else xs
  {
    if xs != [] {
      assert xs[1..] == [];
    }
  }

  /** `OnStop` traces one error exactly when a disposal it reached threw,
      and touches neither the documents nor the listeners. */
  lemma StopTraces(n: Node, fault: StopFault)
    ensures var r := Stop(n, fault);
      var threw := Failing(fault).Some? && Failing(fault).value in Present(n);
      && r.reports == n.reports + (if threw then [OnStopError] else [])
      && r.documents == n.documents && r.listeners == n.listeners
  {
    assert n.server != Null <==> Server in Present(n);
    assert n.database != Null <==> Database in Present(n);
    assert n.dataDrive != NoDrive <==> DataDrive in Present(n);
  }

  /** A node with everything running and a fault at one disposal: the
      components after it are left running. */
  lemma StopLeavesTheRest(n: Node, fault: StopFault)
    requires n.server.Live? && n.database.Live? && n.dataDrive.Mounted?
    ensures var r := Stop(n, fault);
      && (fault == ServerDisposeFails ==> r.server == n.server && r.database == n.database && r.dataDrive == n.dataDrive)
      && (fault == DatabaseDisposeFails ==> r.server.Disposed? && r.database == n.database && r.dataDrive == n.dataDrive)
      && (fault == UnmountFails ==> r.server.Disposed? && r.database.Disposed? && r.dataDrive == n.dataDrive)
      && (fault == NoStopFault ==> r.server.Disposed? && r.database.Disposed? && r.dataDrive == Unmounted(n.dataDrive.vhd))
  {
  }

  /** Only a topology change triggers reconfiguration; a failed one is
      traced and leaves the node serving on the stale document. */
  lemma ChangedOnlyOnTopology(n: Node, env: Environment, changes: seq<Change>, writeFails: bool)
    ensures !HasTopologyChange(changes) ==> Changed(n, env, changes, writeFails) == n
    ensures HasTopologyChange(changes) ==>
      var r := Changed(n, env, changes, writeFails);
      && r.dataDrive == n.dataDrive && r.database == n.database && r.server == n.server
      && r.documents == SetupReplication(n, env, writeFails).node.documents
      && (n.database.Live? && !writeFails ==> r.reports == n.reports + MissingReports(Replication.Skipped(env.currentId, env.instances)))
      && (!n.database.Live? || writeFails ==>
            r.documents == n.documents &&
            r.reports == n.reports + MissingReports(Replication.Skipped(env.currentId, env.instances)) + [ChangedError])
  {
  }
}
