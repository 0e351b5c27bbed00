/** The table-storage trace listener (AzureDiagnostics/TableStorageTraceListener.cs):
    per-thread message buffers filled by `Write`/`WriteLine`, completed into
    `LogEntry` values by every structured trace call, staged in a pending
    list and handed to the table service in one batch per `Flush`.

    The thread-static `StringBuilder` becomes a map from the calling thread
    to its buffer (a missing key is the still-null builder); the locks become
    sequential code.  The table service is reduced to the client handle, the
    existence of the diagnostics table and the list of batches whose save
    was started. */
module TraceListener {
  import opened Wrappers
  import opened Strings
  import opened LogEntries

  /** Identity of the calling thread (the owner of a thread-static buffer). */
  type ThreadId = nat

  const DefaultConnectionSetting: string := "Microsoft.WindowsAzure.Plugins.Diagnostics.ConnectionString"

  /** A table-service client created from the named configuration setting. */
  datatype TableClient = TableClient(connectionSetting: string)

  /** Where `Initialize` throws, if it does: resolving the storage account
      from its setting, or creating the diagnostics table. */
  datatype InitFault = NoInitFault | AccountFails | CreateTableFails

  /** All entries of a list of batches, batch after batch. */
  function Flatten(batches: seq<seq<LogEntry>>): seq<LogEntry> {
    if batches == [] then [] else Flatten(batches[..|batches| - 1]) + batches[|batches| - 1]
  }

  lemma FlattenAppend(batches: seq<seq<LogEntry>>, batch: seq<LogEntry>)
    ensures Flatten(batches + [batch]) == Flatten(batches) + batch
  {
    assert (batches + [batch])[..|batches|] == batches;
  }

  /** Every recorded entry is in exactly one place: a started batch, in
      order, or the pending list after all of them; no batch is empty. */
  ghost predicate Partitioned(recorded: seq<LogEntry>, batches: seq<seq<LogEntry>>, pending: seq<LogEntry>) {
    && recorded == Flatten(batches) + pending
    && (forall i :: 0 <= i < |batches| ==> batches[i] != [])
  }

  /** Recording an entry appends it to the pending list. */
  lemma RecordKeepsPartition(recorded: seq<LogEntry>, batches: seq<seq<LogEntry>>, pending: seq<LogEntry>, e: LogEntry)
    requires Partitioned(recorded, batches, pending)
    ensures Partitioned(recorded + [e], batches, pending + [e])
  {
  }

  /** Draining the pending list into a new batch (none when it is empty)
      keeps every entry in exactly one place. */
  lemma DrainKeepsPartition(recorded: seq<LogEntry>, batches: seq<seq<LogEntry>>, pending: seq<LogEntry>)
    requires Partitioned(recorded, batches, pending)
    ensures Partitioned(recorded, batches + (if pending == [] then [] else [pending]), [])
  {
    if pending != [] {
      FlattenAppend(batches, pending);
    } else {
      assert batches + [] == batches;
    }
  }

  /** A second write to a key replaces the first. */
  lemma Overwrite(m: map<ThreadId, string>, k: ThreadId, a: string, b: string)
    ensures m[k := a][k := b] == m[k := b]
  {
  }

  class TableStorageTraceListener {
    const connectionString: string

    /** `messageBuffer`, one per thread; a thread without a key has a null builder. */
    var buffers: map<ThreadId, string>
    /** `traceLog`: completed entries not yet flushed. */
    var traceLog: seq<LogEntry>
    var isInitialized: bool
    var tableStorage: Option<TableClient>
    /** Whether the diagnostics table exists in the table service. */
    var tableCreated: bool
    /** The batches whose asynchronous save `Flush` started, oldest first. */
    var saves: seq<seq<LogEntry>>

    /** Every entry ever appended, in order of recording. */
    ghost var recorded: seq<LogEntry>
    /** How many times `Initialize` completed. */
    ghost var initializations: nat

    /** The recorded entries are partitioned between the started batches
        and the pending list; initialization completed at most once and
        only if the gate is closed. */
    ghost predicate Valid()
      reads this
    {
      && Partitioned(recorded, saves, traceLog)
      && initializations == (if isInitialized then 1 else 0)
      && (isInitialized ==> tableStorage.Some? && tableCreated)
    }

    /** The text buffered for `thread` (empty while its builder is null). */
    function Buffer(thread: ThreadId): string
      reads this
    {
      if thread in buffers then buffers[thread] else ""
    }

    constructor (connectionString: string)
      ensures Valid()
      ensures this.connectionString == connectionString
      ensures buffers == map[] && traceLog == [] && saves == [] && recorded == []
      ensures !isInitialized && tableStorage == None && !tableCreated
    {
      this.connectionString := connectionString;
      buffers := map[];
      traceLog := [];
      isInitialized := false;
      tableStorage := None;
      tableCreated := false;
      saves := [];
      recorded := [];
      initializations := 0;
    }

    /** The parameterless constructor: the default diagnostics setting. */
    constructor Default()
      ensures Valid()
      ensures connectionString == DefaultConnectionSetting
      ensures buffers == map[] && traceLog == [] && saves == [] && recorded == []
      ensures !isInitialized && tableStorage == None && !tableCreated
    {
      connectionString := DefaultConnectionSetting;
      buffers := map[];
      traceLog := [];
      isInitialized := false;
      tableStorage := None;
      tableCreated := false;
      saves := [];
      recorded := [];
      initializations := 0;
    }

    /** Appends `message` unchanged to the calling thread's buffer. */
    method Write(thread: ThreadId, message: string)
      requires Valid()
      modifies this`buffers
      ensures Valid()
      ensures buffers == old(buffers)[thread := old(Buffer(thread)) + message]
    {
      if thread !in buffers {
        buffers := buffers[thread := ""];
      }
      buffers := buffers[thread := buffers[thread] + message];
    }

    /** Appends `message` and a line terminator to the calling thread's buffer. */
    method WriteLine(thread: ThreadId, message: string)
      requires Valid()
      modifies this`buffers
      ensures Valid()
      ensures buffers == old(buffers)[thread := old(Buffer(thread)) + message + NewLine]
    {
      if thread !in buffers {
        buffers := buffers[thread := ""];
      }
      buffers := buffers[thread := buffers[thread] + message + NewLine];
    }

    /** Empties the calling thread's buffer and, unless what it held is
        empty once one trailing terminator is removed, appends one entry
        for it to the pending list. */
    method AppendEntry(thread: ThreadId, id: int, eventType: TraceEventType,
                       cache: TraceEventCache, role: RoleIdentity)
      requires Valid()
      modifies this`buffers, this`traceLog, this`recorded
      ensures Valid()
      ensures buffers == old(buffers)[thread := ""]
      ensures var message := StripNewLine(old(Buffer(thread)));
        traceLog == old(traceLog) + (if message == [] then [] else [NewEntry(id, eventType, cache, role, message)])
      ensures recorded == old(recorded) + traceLog[|old(traceLog)|..]
    {
      if thread !in buffers {
        buffers := buffers[thread := ""];
      }
      var message := buffers[thread];
      buffers := buffers[thread := ""];
      if EndsWith(message, NewLine) {
        message := message[..|message| - |NewLine|];
      }
      if |message| == 0 {
        return;
      }
      var entry := NewEntry(id, eventType, cache, role, message);
      RecordKeepsPartition(recorded, saves, traceLog, entry);
      traceLog := traceLog + [entry];
      recorded := recorded + [entry];
    }

    /** `TraceEvent` (every overload): the base class writes its text
        (`written`, not visible here) into the buffer, then the entry is
        completed. */
    method TraceEvent(thread: ThreadId, cache: TraceEventCache, eventType: TraceEventType,
                      id: int, written: string, role: RoleIdentity)
      requires Valid()
      modifies this`buffers, this`traceLog, this`recorded
      ensures Valid()
      ensures buffers == old(buffers)[thread := ""]
      ensures var message := StripNewLine(old(Buffer(thread)) + written);
        traceLog == old(traceLog) + (if message == [] then [] else [NewEntry(id, eventType, cache, role, message)])
      ensures recorded == old(recorded) + traceLog[|old(traceLog)|..]
    {
      Write(thread, written);
      ghost var written_ := buffers;
      AppendEntry(thread, id, eventType, cache, role);
      Overwrite(old(buffers), thread, written_[thread], "");
    }

    /** `TraceData` (both overloads): as `TraceEvent`, the base class having
        written the rendered data. */
    method TraceData(thread: ThreadId, cache: TraceEventCache, eventType: TraceEventType,
                     id: int, written: string, role: RoleIdentity)
      requires Valid()
      modifies this`buffers, this`traceLog, this`recorded
      ensures Valid()
      ensures buffers == old(buffers)[thread := ""]
      ensures var message := StripNewLine(old(Buffer(thread)) + written);
        traceLog == old(traceLog) + (if message == [] then [] else [NewEntry(id, eventType, cache, role, message)])
      ensures recorded == old(recorded) + traceLog[|old(traceLog)|..]
    {
      Write(thread, written);
      ghost var written_ := buffers;
      AppendEntry(thread, id, eventType, cache, role);
      Overwrite(old(buffers), thread, written_[thread], "");
    }

    /** `TraceTransfer`: always recorded at the `Transfer` level. */
    method TraceTransfer(thread: ThreadId, cache: TraceEventCache, id: int,
                         written: string, role: RoleIdentity)
      requires Valid()
      modifies this`buffers, this`traceLog, this`recorded
      ensures Valid()
      ensures buffers == old(buffers)[thread := ""]
      ensures var message := StripNewLine(old(Buffer(thread)) + written);
        traceLog == old(traceLog) + (if message == [] then [] else [NewEntry(id, Transfer, cache, role, message)])
      ensures recorded == old(recorded) + traceLog[|old(traceLog)|..]
    {
      Write(thread, written);
      ghost var written_ := buffers;
      AppendEntry(thread, id, Transfer, cache, role);
      Overwrite(old(buffers), thread, written_[thread], "");
    }

    /** Resolves the account, creates the table client, creates the
        diagnostics table and closes the gate.  Called only behind the
        gate, so only while it is open. */
    method Initialize(fault: InitFault) returns (ok: bool)
      requires Valid() && !isInitialized
      modifies this`tableStorage, this`tableCreated, this`isInitialized, this`initializations
      ensures Valid()
      ensures ok == (fault == NoInitFault) && isInitialized == ok
      ensures initializations == old(initializations) + (if ok then 1 else 0)
      ensures fault == AccountFails ==> tableStorage == old(tableStorage) && tableCreated == old(tableCreated)
      ensures fault != AccountFails ==> tableStorage == Some(TableClient(connectionString))
      ensures tableCreated == (old(tableCreated) || ok)
    {
      if fault == AccountFails {
        return false;
      }
      tableStorage := Some(TableClient(connectionString));
      if fault == CreateTableFails {
        return false;
      }
      tableCreated := true;
      isInitialized := true;
      initializations := initializations + 1;
      ok := true;
    }

    /** Runs the one-time initialization if the gate is still open (a
        failure there propagates and leaves the pending list alone), then
        moves every pending entry, in order, into one batch, empties the
        list, and starts the save only for a non-empty batch. */
    method Flush(fault: InitFault) returns (ok: bool)
      requires Valid()
      modifies this`traceLog, this`saves, this`tableStorage, this`tableCreated,
               this`isInitialized, this`initializations
      ensures Valid()
      ensures ok == (old(isInitialized) || fault == NoInitFault)
      ensures ok ==> isInitialized && traceLog == []
      ensures ok ==> saves == old(saves) + (if old(traceLog) == [] then [] else [old(traceLog)])
      ensures !ok ==> traceLog == old(traceLog) && saves == old(saves) && !isInitialized
      ensures initializations == old(initializations) + (if !old(isInitialized) && ok then 1 else 0)
      ensures old(isInitialized) ==> tableStorage == old(tableStorage) && tableCreated == old(tableCreated)
      ensures !old(isInitialized) && fault == AccountFails ==>
        tableStorage == old(tableStorage) && tableCreated == old(tableCreated)
      ensures !old(isInitialized) && fault != AccountFails ==> tableStorage == Some(TableClient(connectionString))
      ensures !old(isInitialized) ==> tableCreated == (old(tableCreated) || ok)
    {
      if !isInitialized {
        ok := Initialize(fault);
        if !ok {
          return;
        }
      }
      var batch := traceLog;
      DrainKeepsPartition(recorded, saves, batch);
      traceLog := [];
      if |batch| > 0 {
        saves := saves + [batch];
      }
      ok := true;
    }
  }

  /** A message traced before any flush, with the store details not yet
      resolved, is in the first flush's batch, and nothing stays pending. */
  method RecordBeforeFirstFlush(thread: ThreadId, cache: TraceEventCache, eventType: TraceEventType,
                                id: int, text: string, role: RoleIdentity)
    returns (batches: seq<seq<LogEntry>>, pending: seq<LogEntry>)
    requires text != []
    ensures batches == [[NewEntry(id, eventType, cache, role, text)]]
    ensures pending == []
  {
    var listener := new TableStorageTraceListener.Default();
    assert listener.Buffer(thread) + (text + NewLine) == text + NewLine;
    listener.TraceEvent(thread, cache, eventType, id, text + NewLine, role);
    StripNewLineInvertsWriteLine(text);
    assert listener.traceLog == [NewEntry(id, eventType, cache, role, text)];
    var ok := listener.Flush(NoInitFault);
    batches, pending := listener.saves, listener.traceLog;
  }

  /** Fragments written by one thread form one message: `Write(a)`,
      `WriteLine(b)` and an empty trace call record `a + b`; another
      thread's buffer is unaffected throughout. */
  method FragmentsFormOneLine(thread: ThreadId, other: ThreadId, cache: TraceEventCache,
                              a: string, b: string, role: RoleIdentity)
    returns (recorded: seq<LogEntry>, otherBuffer: string)
    requires thread != other && a + b != []
    ensures recorded == [NewEntry(0, Information, cache, role, a + b)]
    ensures otherBuffer == []
  {
    var listener := new TableStorageTraceListener("StorageAccount");
    assert "" + a == a;
    listener.Write(thread, a);
    assert listener.buffers == map[thread := a];
    listener.WriteLine(thread, b);
    assert listener.buffers == map[thread := a + b + NewLine];
    var line := a + b + NewLine;
    assert line + "" == (a + b) + NewLine;
    StripNewLineInvertsWriteLine(a + b);
    listener.TraceEvent(thread, cache, Information, 0, "", role);
    assert listener.buffers == map[thread := ""];
    assert other !in listener.buffers;
    recorded, otherBuffer := listener.traceLog, listener.Buffer(other);
  }
}
