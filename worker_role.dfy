/** The RavenDB worker role (RavenDbWorker/WorkerRole.cs) as an object whose
    fields its lifecycle methods update in place.  Each method is proved to
    leave the role in the state the matching function of `Lifecycle` gives,
    so the properties proved there hold of the role. */
module Worker {
  import Replication
  import opened Lifecycle

  /** `e.Changes.OfType<RoleEnvironmentTopologyChange>().Any()`. */
  method AnyTopologyChange(changes: seq<Change>) returns (found: bool)
    ensures found <==> HasTopologyChange(changes)
  {
    found := false;
    var i := 0;
    while i < |changes| && !found
      invariant 0 <= i <= |changes|
      invariant found <==> exists j :: 0 <= j < i && changes[j].TopologyChange?
    {
      found := changes[i].TopologyChange?;
      i := i + 1;
    }
  }

  class WorkerRole {
    var dataDrive: Drive
    var database: Handle
    var server: Handle
    /** The documents of the database the role hosts. */
    var documents: map<string, Document>
    /** The process-wide `Trace.Listeners` collection, by listener name. */
    var listeners: seq<string>
    /** Subscriptions of `RoleEnvironmentChanged` to `RoleEnvironment.Changed`. */
    var changedHandlers: nat
    /** Disposals and unmounts that completed, in order. */
    var teardown: seq<Component>
    /** Errors traced with `Trace.TraceError`. */
    var reports: seq<Report>

    function Abstract(): Node
      reads this
    {
      Node(dataDrive, database, server, documents, listeners, changedHandlers, teardown, reports)
    }

    /** A role before `OnStart`: no drive, database or server, in a process
        whose trace listeners are `listeners`. */
    constructor(listeners: seq<string>)
      ensures Abstract() == Node(NoDrive, Null, Null, map[], listeners, 0, [], [])
    {
      dataDrive := NoDrive;
      database := Null;
      server := Null;
      documents := map[];
      this.listeners := listeners;
      changedHandlers := 0;
      teardown := [];
      reports := [];
    }

    method SetupTraceListener(setting: BoolSetting) returns (ok: bool)
      modifies this`listeners
      ensures Step(Abstract(), ok) == Lifecycle.SetupTraceListener(old(Abstract()), setting)
    {
      match setting {
        case Missing =>
          ok := false;
        case Unparsable =>
          ok := true;
        case Parsed(enable) =>
          if enable {
            listeners := listeners + [ListenerName];
          } else {
            listeners := RemoveFirst(listeners, ListenerName);
          }
          ok := true;
      }
    }

    method MountCloudDrive(currentId: string, outcome: MountOutcome) returns (ok: bool)
      modifies this`dataDrive
      ensures Step(Abstract(), ok) == Lifecycle.MountCloudDrive(old(Abstract()), currentId, outcome)
    {
      if outcome == FailsBeforeDrive {
        return false;
      }
      var vhd := VhdName(currentId);
      dataDrive := Created(vhd);
      if outcome == DriveFails {
        return false;
      }
      dataDrive := Mounted(vhd, outcome.localPath);
      ok := true;
    }

    method StartRaven(env: Environment, fault: RavenFault) returns (ok: bool)
      modifies this`database, this`server, this`teardown
      ensures Step(Abstract(), ok) == Lifecycle.StartRaven(old(Abstract()), env, fault)
    {
      ok := true;
      if !dataDrive.Mounted? || !env.httpCompression.Parsed? || fault == FailsBeforeDatabase || fault == DatabaseFails {
        ok := false;
      } else {
        var config := ConfigurationFor(dataDrive.localPath, env);
        database := Live(config);
        if fault == WorkersFail || fault == ServerFails {
          ok := false;
        } else {
          server := Live(config);
          if fault == ListeningFails {
            teardown := teardown + [Server];
            server := Null;
            ok := false;
          }
        }
      }
      if !ok && database != Null {
        teardown := teardown + [Database];
        database := Null;
      }
    }

    method SetupReplication(env: Environment, writeFails: bool) returns (ok: bool)
      modifies this`documents, this`reports
      ensures Step(Abstract(), ok) == Lifecycle.SetupReplication(old(Abstract()), env, writeFails)
    {
      var json, missing := Replication.GetReplicationDestinations(env.currentId, env.ravenPort, env.instances);
      reports := reports + MissingReports(missing);
      if !database.Live? || writeFails {
        return false;
      }
      var pending := documents - {Replication.DestinationsKey};
      pending := pending[Replication.DestinationsKey := Json(json)];
      documents := pending;
      ok := true;
    }

    /** Always returns `base.OnStart()`, which is true. */
    method OnStart(env: Environment, faults: StartFaults) returns (result: bool)
      modifies this`listeners, this`dataDrive, this`database, this`server, this`teardown,
               this`documents, this`reports, this`changedHandlers
      ensures result
      ensures Abstract() == Start(old(Abstract()), env, faults)
    {
      var ok := SetupTraceListener(env.enableTraceListener);
      if ok {
        ok := MountCloudDrive(env.currentId, faults.mount);
        if ok {
          ok := StartRaven(env, faults.raven);
          if ok {
            ok := SetupReplication(env, faults.replicationFails);
          }
        }
      }
      if ok {
        changedHandlers := changedHandlers + 1;
      } else {
        reports := reports + [OnStartError];
      }
      result := true;
    }

    method StopRaven(fault: StopFault) returns (ok: bool)
      modifies this`server, this`database, this`dataDrive, this`teardown
      ensures Step(Abstract(), ok) == Lifecycle.StopRaven(old(Abstract()), fault)
    {
      if server != Null {
        if fault == ServerDisposeFails {
          return false;
        }
        server := Disposed(server.config);
        teardown := teardown + [Server];
      }
      if database != Null {
        if fault == DatabaseDisposeFails {
          return false;
        }
        database := Disposed(database.config);
        teardown := teardown + [Database];
      }
      if dataDrive != NoDrive {
        if fault == UnmountFails {
          return false;
        }
        dataDrive := Unmounted(dataDrive.vhd);
        teardown := teardown + [DataDrive];
      }
      ok := true;
    }

    method OnStop(fault: StopFault)
      modifies this`server, this`database, this`dataDrive, this`teardown, this`reports
      ensures Abstract() == Stop(old(Abstract()), fault)
    {
      var ok := StopRaven(fault);
      if !ok {
        reports := reports + [OnStopError];
      }
    }

    method RoleEnvironmentChanged(env: Environment, changes: seq<Change>, writeFails: bool)
      modifies this`documents, this`reports
      ensures Abstract() == Changed(old(Abstract()), env, changes, writeFails)
    {
      var topology := AnyTopologyChange(changes);
      if topology {
        var ok := SetupReplication(env, writeFails);
        if !ok {
          reports := reports + [ChangedError];
        }
      }
    }
  }
}
