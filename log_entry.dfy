/** The record the diagnostics listener stores (AzureDiagnostics/LogEntry.cs)
    and the pure parts of building it: the newline stripping of a completed
    message and the partition/row keys derived from the event timestamp. */
module LogEntries {
  import Decimal
  import opened Strings

  /** `long`: the type of `TraceEventCache.Timestamp`. */
  type Int64 = x: int | -0x8000_0000_0000_0000 <= x < 0x8000_0000_0000_0000

  /** `Environment.NewLine` on the platform the role runs on. */
  const NewLine: string := "\r\n"

  /** `timestamp >> 30` on a `long` is a floor division by 2^30. */
  const PartitionSpan: nat := 0x4000_0000

  /** System.Diagnostics.TraceEventType; `Level` gives its integer value. */
  datatype TraceEventType =
    | Critical | Error | Warning | Information | Verbose
    | Start | Stop | Suspend | Resume | Transfer
  {
    function Level(): int {
      match this
      case Critical => 1
      case Error => 2
      case Warning => 4
      case Information => 8
      case Verbose => 16
      case Start => 256
      case Stop => 512
      case Suspend => 1024
      case Resume => 2048
      case Transfer => 4096
    }
  }

  /** The parts of `TraceEventCache` the listener reads. */
  datatype TraceEventCache = TraceEventCache(timestamp: Int64, processId: int, threadId: string)

  /** `RoleEnvironment.CurrentRoleInstance`: its role's name and its id. */
  datatype RoleIdentity = RoleIdentity(roleName: string, instanceId: string)

  datatype LogEntry = LogEntry(
    partitionKey: string,
    rowKey: string,
    eventTickCount: Int64,
    level: int,
    eventId: int,
    pid: int,
    tid: string,
    roleName: string,
    roleId: string,
    message: string)

  /** The buffered text with one trailing `NewLine` removed, if it has one. */
  function StripNewLine(buffered: string): (message: string)
    ensures EndsWith(buffered, NewLine) ==> message + NewLine == buffered
    ensures !EndsWith(buffered, NewLine) ==> message == buffered
  {
    if EndsWith(buffered, NewLine) then buffered[..|buffered| - |NewLine|] else buffered
  }

  /** A line written by `WriteLine(m)` comes back as `m`: exactly one
      terminator is removed, even when `m` itself ends in one. */
  lemma StripNewLineInvertsWriteLine(m: string)
    ensures StripNewLine(m + NewLine) == m
  {
    assert (m + NewLine)[..|m|] == m;
  }

  /** Text that does not end in a terminator is kept verbatim, so a message
      is dropped only when the buffer held nothing or just one `NewLine`. */
  lemma StripNewLineEmpty(buffered: string)
    ensures StripNewLine(buffered) == [] <==> buffered == [] || buffered == NewLine
  {
    if buffered == NewLine {
      assert EndsWith(buffered, NewLine);
    }
  }

  /** `string.Format("{0:D19}", t)`. */
  function RowKey(t: Int64): string {
    Decimal.Format(t, 19)
  }

  /** `string.Format("{0:D10}", t >> 30)`. */
  function PartitionKey(t: Int64): string {
    Decimal.Format(t / PartitionSpan, 10)
  }

  lemma Pow10Values()
    ensures Decimal.Pow10(10) == 10_000_000_000
    ensures Decimal.Pow10(19) == 10_000_000_000_000_000_000
  {
  }

  /** For a non-negative timestamp the row key is exactly 19 digits and
      parses back to the timestamp. */
  lemma RowKeyRoundTrip(t: Int64)
    requires 0 <= t
    ensures |RowKey(t)| == 19 && Decimal.AllDigits(RowKey(t))
    ensures Decimal.Value(RowKey(t)) == t
  {
    Pow10Values();
    Decimal.PaddedExactWidth(t, 19);
    Decimal.PaddedRoundTrip(t, 19);
  }

  /** For a non-negative timestamp the partition key is exactly 10 digits
      and parses back to `t >> 30`. */
  lemma PartitionKeyRoundTrip(t: Int64)
    requires 0 <= t
    ensures |PartitionKey(t)| == 10 && Decimal.AllDigits(PartitionKey(t))
    ensures Decimal.Value(PartitionKey(t)) == t / PartitionSpan
  {
    Pow10Values();
    Decimal.PaddedExactWidth(t / PartitionSpan, 10);
    Decimal.PaddedRoundTrip(t / PartitionSpan, 10);
  }

  /** Row keys of non-negative timestamps sort, as strings, exactly as the
      timestamps sort as numbers. */
  lemma RowKeyOrder(t1: Int64, t2: Int64)
    requires 0 <= t1 && 0 <= t2
    ensures Decimal.LexLess(RowKey(t1), RowKey(t2)) <==> t1 < t2
  {
    Pow10Values();
    Decimal.PaddedExactWidth(t1, 19);
    Decimal.PaddedExactWidth(t2, 19);
    Decimal.FixedOrder(t1, t2, 19);
  }

  /** A later timestamp never lands in an earlier-sorting partition, and two
      timestamps share a partition key exactly when they agree on `t >> 30`. */
  lemma PartitionKeyOrder(t1: Int64, t2: Int64)
    requires 0 <= t1 && 0 <= t2
    ensures t1 <= t2 ==> !Decimal.LexLess(PartitionKey(t2), PartitionKey(t1))
    ensures PartitionKey(t1) == PartitionKey(t2) <==> t1 / PartitionSpan == t2 / PartitionSpan
  {
    Pow10Values();
    var p1, p2 := t1 / PartitionSpan, t2 / PartitionSpan;
    Decimal.PaddedExactWidth(p1, 10);
    Decimal.PaddedExactWidth(p2, 10);
    Decimal.FixedOrder(p2, p1, 10);
    PartitionKeyRoundTrip(t1);
    PartitionKeyRoundTrip(t2);
  }

  /** The entry `AppendEntry` builds for a non-empty message. */
  function NewEntry(id: int, eventType: TraceEventType, cache: TraceEventCache,
                    role: RoleIdentity, message: string): LogEntry
  {
    LogEntry(
      partitionKey := PartitionKey(cache.timestamp),
      rowKey := RowKey(cache.timestamp),
      eventTickCount := cache.timestamp,
      level := eventType.Level(),
      eventId := id,
      pid := cache.processId,
      tid := cache.threadId,
      roleName := role.roleName,
      roleId := role.instanceId,
      message := message)
  }

  /** An entry keeps the message and the timestamp it was built from, and
      for a non-negative timestamp both keys are fixed-width digit strings
      that parse back to the timestamp they come from. */
  lemma NewEntryKeys(id: int, eventType: TraceEventType, cache: TraceEventCache,
                     role: RoleIdentity, message: string)
    requires 0 <= cache.timestamp
    ensures var e := NewEntry(id, eventType, cache, role, message);
      && e.message == message && e.eventTickCount == cache.timestamp
      && |e.rowKey| == 19 && Decimal.AllDigits(e.rowKey) && Decimal.Value(e.rowKey) == cache.timestamp
      && |e.partitionKey| == 10 && Decimal.AllDigits(e.partitionKey)
      && Decimal.Value(e.partitionKey) == cache.timestamp / PartitionSpan
  {
    RowKeyRoundTrip(cache.timestamp);
    PartitionKeyRoundTrip(cache.timestamp);
  }
}
