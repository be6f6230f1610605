/** The `qbo_sync_runs` store of apps/api/src/qbo-sync-run.ts: run rows, the workflow event log and
    the mutation outbox, changed by transactions.

    `Step` says what one transaction does.  The class performs the same transactions statement by
    statement and rolls back when one throws. */
module QboSyncRun {
  import opened Basics
  import opened Workflow

  // ---------- tables ----------

  datatype Row = Row(
    id: string, company: string, connection: string, status: RunState, stateVersion: int,
    startedAt: Option<string>, succeededAt: Option<string>, failedAt: Option<string>, retriedAt: Option<string>,
    error: Option<string>, payload: Record, triggeredBy: Option<string>, version: int, deleted: bool)

  datatype OutboxRow = OutboxRow(
    entityType: string, entityId: string, mutationType: string, connection: string, status: string,
    attemptCount: int, actor: string)

  /** The outbox is keyed by its unique (company, idempotency key). */
  datatype Store = Store(rows: map<string, Row>, log: seq<LogRow>, outbox: map<(string, string), OutboxRow>)

  /** The declared default of the `snapshot` column, which is never null. */
  const PAYLOAD_DEFAULT: Record := map[]

  datatype Error = Http(status: int) | Thrown(message: string)

  datatype HumanEvent = HumanStart | HumanRetry

  datatype DispatchResult =
    | Dispatched(row: Row, snapshot: Snapshot)
    | NotFound
    | VersionConflict(row: Row, snapshot: Snapshot)
    | IllegalEvent(row: Row, snapshot: Snapshot)

  /** One transaction.  `now` is the clock reading of the handler, `newId` the generated key.
      `WorkerMarks` and `SoftDelete` are the writes other parts of the system may make. */
  datatype Op =
    | Start(company: string, connection: string, triggeredBy: string, now: string, newId: string)
    | Succeed(company: string, runId: string, payload: Record, triggeredBy: string, now: string)
    | Fail(company: string, runId: string, error: string, triggeredBy: string, now: string)
    | Human(company: string, runId: string, kind: HumanEvent, expectedVersion: int, actor: string, now: string)
    | WorkerMarks(company: string, key: string, status: string)
    | SoftDelete(company: string, runId: string)

  datatype Outcome =
    | Started(row: Row, snapshot: Snapshot)
    | Completed
    | HumanOutcome(result: DispatchResult)
    | Noted
    | Failure(error: Error)

  // ---------- columns and snapshots ----------

  function ToField<T>(column: Option<T>): Field<T> {
    if column.Some? then Val(column.value) else Null
  }

  function ToColumn<T>(field: Field<T>): Option<T> {
    if field.Val? then Some(field.value) else None
  }

  /** `coalesce(a, b)` */
  function Coalesce<T>(a: Option<T>, b: Option<T>): Option<T> {
    if a.Some? then a else b
  }

  function RowToSnapshot(row: Row): Snapshot {
    Snapshot(row.status, row.stateVersion, ToField(row.startedAt), ToField(row.succeededAt), ToField(row.failedAt),
      ToField(row.retriedAt), ToField(row.error), Val(row.payload), ToField(row.triggeredBy))
  }

  function RunKey(runId: string): string {
    "qbo_sync_run:run:" + runId
  }

  function LogFor(company: string, runId: string, stateVersion: int, event: Event, after: Snapshot, actor: string): LogRow {
    LogRow(company, WORKFLOW_NAME, SCHEMA_VERSION, "qbo_sync_run", runId, stateVersion, event, after, Val(actor))
  }

  function OutboxFor(runId: string, connection: string, actor: string): OutboxRow {
    OutboxRow("qbo_sync_run", runId, "run_qbo_sync", connection, "pending", 0, actor)
  }

  // ---------- statements ----------

  /** The unique key (entity_id, workflow_name, state_version) of the event log. */
  predicate AlreadyLogged(log: seq<LogRow>, row: LogRow) {
    exists i :: 0 <= i < |log| && log[i].entityId == row.entityId && log[i].workflowName == row.workflowName
                && log[i].stateVersion == row.stateVersion
  }

  function Logged(store: Store, row: LogRow): Result<Store, Error> {
    if AlreadyLogged(store.log, row) then Err(Http(409)) else Ok(store.(log := store.log + [row]))
  }

  /** `on conflict (company_id, idempotency_key) do update` */
  function Enqueued(outbox: map<(string, string), OutboxRow>, company: string, key: string, row: OutboxRow): map<(string,
      string), OutboxRow> {
    if (company, key) in outbox then
      var existing := outbox[(company, key)];
      outbox[(company, key) := existing.(connection := row.connection, status := "pending", attemptCount := existing.attemptCount + 1)]
    else outbox[(company, key) := row]
  }

  function FindRun(store: Store, company: string, runId: string): Option<Row> {
    if runId in store.rows && store.rows[runId].company == company then Some(store.rows[runId]) else None
  }

  // ---------- transactions ----------

  function PendingRow(op: Op): Row
    requires op.Start?
  {
    Row(op.newId, op.company, op.connection, Pending, 1, None, None, None, None, None, PAYLOAD_DEFAULT, Some(op.triggeredBy), 1, false)
  }

  /** The snapshot that starting a run builds by hand; its payload is null although the row's is not. */
  function PendingSnapshot(row: Row): Snapshot {
    Snapshot(Pending, row.stateVersion, Null, Null, Null, Null, Null, Null, ToField(row.triggeredBy))
  }

  function StartRun(store: Store, op: Op): Result<(Store, Row, Snapshot), Error>
    requires op.Start?
  {
    if op.newId in store.rows then Err(Thrown("duplicate key"))
    else
      var pending := PendingRow(op);
      var event := StartSync(op.now, Val(op.triggeredBy));
      var next := Transition(PendingSnapshot(pending), event);
      if next.Err? then Err(Thrown(next.error))
      else
        var row := pending.(status := next.value.state, stateVersion := next.value.stateVersion,
          startedAt := ToColumn(next.value.startedAt), error := None, version := pending.version + 1);
        var logged := Logged(store.(rows := store.rows[op.newId := row]),
          LogFor(op.company, op.newId, pending.stateVersion, event, next.value, op.triggeredBy));
        if logged.Err? then Err(logged.error)
        else
          var outbox := Enqueued(logged.value.outbox, op.company, RunKey(op.newId), OutboxFor(op.newId, op.connection, op.triggeredBy));
          Ok((logged.value.(outbox := outbox), row, next.value))
  }

  function CompletionEvent(op: Op): Event
    requires op.Succeed? || op.Fail?
  {
    if op.Succeed? then SyncSucceeded(op.now, Val(op.payload)) else SyncFailed(op.now, op.error)
  }

  function CompletedRow(op: Op, row: Row, next: Snapshot): Row
    requires op.Succeed? || op.Fail?
  {
    var moved := row.(status := next.state, stateVersion := next.stateVersion, version := row.version + 1);
    if op.Succeed? then
      moved.(succeededAt := ToColumn(next.succeededAt), payload := if next.payload.Val? then next.payload.value else map[], error := None)
    else moved.(failedAt := ToColumn(next.failedAt), error := ToColumn(next.error))
  }

  /** Completing a run that is not there does nothing. */
  function CompleteRun(store: Store, op: Op): Result<Store, Error>
    requires op.Succeed? || op.Fail?
  {
    var found := FindRun(store, op.company, op.runId);
    if found.None? then Ok(store)
    else
      var event := CompletionEvent(op);
      var next := Transition(RowToSnapshot(found.value), event);
      if next.Err? then Err(Thrown(next.error))
      else
        Logged(store.(rows := store.rows[op.runId := CompletedRow(op, found.value, next.value)]),
          LogFor(op.company, op.runId, found.value.stateVersion, event, next.value, op.triggeredBy))
  }

  function HumanEventFor(op: Op): Event
    requires op.Human?
  {
    if op.kind == HumanRetry then Retry(op.now, Val(op.actor)) else StartSync(op.now, Val(op.actor))
  }

  function DispatchedRow(row: Row, next: Snapshot): Row {
    row.(status := next.state, stateVersion := next.stateVersion,
      startedAt := Coalesce(ToColumn(next.startedAt), row.startedAt),
      retriedAt := Coalesce(ToColumn(next.retriedAt), row.retriedAt),
      error := ToColumn(next.error), triggeredBy := ToColumn(next.triggeredBy), version := row.version + 1)
  }

  function DispatchHuman(store: Store, op: Op): Result<(Store, DispatchResult), Error>
    requires op.Human?
  {
    var found := FindRun(store, op.company, op.runId);
    if found.None? || found.value.deleted then Ok((store, NotFound))
    else
      var row, snapshot := found.value, RowToSnapshot(found.value);
      if snapshot.stateVersion != op.expectedVersion then Ok((store, VersionConflict(row, snapshot)))
      else
        var event := HumanEventFor(op);
        var next := Transition(snapshot, event);
        if next.Err? then Ok((store, IllegalEvent(row, snapshot)))
        else
          var updated := DispatchedRow(row, next.value);
          var logged := Logged(store.(rows := store.rows[op.runId := updated]),
            LogFor(op.company, op.runId, op.expectedVersion, event, next.value, op.actor));
          if logged.Err? then Err(logged.error)
          else
            var outbox := Enqueued(logged.value.outbox, op.company, RunKey(op.runId), OutboxFor(op.runId, updated.connection, op.actor));
            Ok((logged.value.(outbox := outbox), Dispatched(updated, next.value)))
  }

  /** One transaction: its whole effect, or none of it when a statement throws. */
  function Step(store: Store, op: Op): (Store, Outcome) {
    match op
    case Start(_, _, _, _, _) =>
      var result := StartRun(store, op);
      if result.Ok? then (result.value.0, Started(result.value.1, result.value.2)) else (store, Failure(result.error))
    case Human(_, _, _, _, _, _) =>
      var result := DispatchHuman(store, op);
      if result.Ok? then (result.value.0, HumanOutcome(result.value.1)) else (store, Failure(result.error))
    case WorkerMarks(company, key, status) =>
      if (company, key) in store.outbox
      then (store.(outbox := store.outbox[(company, key) := store.outbox[(company, key)].(status := status)]), Noted)
      else (store, Noted)
    case SoftDelete(company, runId) =>
      if FindRun(store, company, runId).Some?
      then (store.(rows := store.rows[runId := store.rows[runId].(deleted := true)]), Noted)
      else (store, Noted)
    case _ =>
      var result := CompleteRun(store, op);
      if result.Ok? then (result.value, Completed) else (store, Failure(result.error))
  }

  // ---------- the store object ----------

  class SyncRuns {
    var rows: map<string, Row>
    var log: seq<LogRow>
    var outbox: map<(string, string), OutboxRow>

    constructor ()
      ensures Contents() == Store(map[], [], map[])
    {
      rows, log, outbox := map[], [], map[];
    }

    function Contents(): Store
      reads this
    {
      Store(rows, log, outbox)
    }

    method RecordWorkflowEvent(row: LogRow) returns (error: Option<Error>)
      modifies this`log
      ensures Logged(old(Contents()), row) == if error.None? then Ok(Contents()) else Err(error.value)
      ensures error.Some? ==> Contents() == old(Contents())
    {
      if AlreadyLogged(log, row) {
        return Some(Http(409));
      }
      log := log + [row];
      error := None;
    }

    method RecordMutationOutbox(company: string, key: string, row: OutboxRow)
      modifies this`outbox
      ensures outbox == Enqueued(old(outbox), company, key, row)
    {
      if (company, key) in outbox {
        var existing := outbox[(company, key)];
        outbox := outbox[(company, key) := existing.(connection := row.connection, status := "pending", attemptCount := existing.attemptCount + 1)];
      } else {
        outbox := outbox[(company, key) := row];
      }
    }

    method StartQboSyncRun(op: Op) returns (result: Result<(Row, Snapshot), Error>)
      requires op.Start?
      modifies this
      ensures var expected := StartRun(old(Contents()), op);
        if expected.Ok? then (Contents(), result) == (expected.value.0, Ok((expected.value.1, expected.value.2)))
        else result == Err(expected.error)
    {
      if op.newId in rows {
        return Err(Thrown("duplicate key"));
      }
      rows := rows[op.newId := PendingRow(op)];
      var pending := rows[op.newId];
      var event := StartSync(op.now, Val(op.triggeredBy));
      var next := Transition(PendingSnapshot(pending), event);
      if next.Err? {
        return Err(Thrown(next.error));
      }
      rows := rows[op.newId := pending.(status := next.value.state, stateVersion := next.value.stateVersion,
        startedAt := ToColumn(next.value.startedAt), error := None, version := pending.version + 1)];
      assert rows == old(rows)[op.newId := rows[op.newId]];
      var conflict := RecordWorkflowEvent(LogFor(op.company, op.newId, pending.stateVersion, event, next.value, op.triggeredBy));
      if conflict.Some? {
        return Err(conflict.value);
      }
      RecordMutationOutbox(op.company, RunKey(op.newId), OutboxFor(op.newId, op.connection, op.triggeredBy));
      result := Ok((rows[op.newId], next.value));
    }

    method CompleteQboSyncRun(op: Op) returns (error: Option<Error>)
      requires op.Succeed? || op.Fail?
      modifies this
      ensures var expected := CompleteRun(old(Contents()), op);
        if expected.Ok? then Contents() == expected.value && error.None? else error == Some(expected.error)
    {
      var current := FindRun(Contents(), op.company, op.runId);
      if current.None? {
        return None;
      }
      var event := CompletionEvent(op);
      var next := Transition(RowToSnapshot(current.value), event);
      if next.Err? {
        return Some(Thrown(next.error));
      }
      rows := rows[op.runId := CompletedRow(op, current.value, next.value)];
      error := RecordWorkflowEvent(LogFor(op.company, op.runId, current.value.stateVersion, event, next.value, op.triggeredBy));
    }

    /** `dispatchWorkflowEvent` with the callbacks of `dispatchQboSyncRunHumanEvent`. */
    method DispatchHumanEvent(op: Op) returns (result: Result<DispatchResult, Error>)
      requires op.Human?
      modifies this
      ensures var expected := DispatchHuman(old(Contents()), op);
        if expected.Ok? then (Contents(), result) == (expected.value.0, Ok(expected.value.1)) else result == Err(expected.error)
    {
      var loaded := FindRun(Contents(), op.company, op.runId);
      if loaded.None? || loaded.value.deleted {
        return Ok(NotFound);
      }
      var row, snapshot := loaded.value, RowToSnapshot(loaded.value);
      if snapshot.stateVersion != op.expectedVersion {
        return Ok(VersionConflict(row, snapshot));
      }
      var event := HumanEventFor(op);
      var next := Transition(snapshot, event);
      if next.Err? {
        return Ok(IllegalEvent(row, snapshot));
      }
      rows := rows[op.runId := DispatchedRow(row, next.value)];
      var conflict := RecordWorkflowEvent(LogFor(op.company, op.runId, op.expectedVersion, event, next.value, op.actor));
      if conflict.Some? {
        return Err(conflict.value);
      }
      RecordMutationOutbox(op.company, RunKey(op.runId), OutboxFor(op.runId, rows[op.runId].connection, op.actor));
      result := Ok(Dispatched(rows[op.runId], next.value));
    }

    /** Begin, run the transaction, then commit, or roll back when it threw. */
    method WithMutationTx(op: Op) returns (outcome: Outcome)
      modifies this
      ensures (Contents(), outcome) == Step(old(Contents()), op)
    {
      var savedRows, savedLog, savedOutbox := rows, log, outbox;
      match op {
        case Start(_, _, _, _, _) =>
          var result := StartQboSyncRun(op);
          outcome := if result.Ok? then Started(result.value.0, result.value.1) else Failure(result.error);
        case Human(_, _, _, _, _, _) =>
          var result := DispatchHumanEvent(op);
          outcome := if result.Ok? then HumanOutcome(result.value) else Failure(result.error);
        case WorkerMarks(company, key, status) =>
          if (company, key) in outbox {
            outbox := outbox[(company, key) := outbox[(company, key)].(status := status)];
          }
          outcome := Noted;
        case SoftDelete(company, runId) =>
          if FindRun(Contents(), company, runId).Some? {
            rows := rows[runId := rows[runId].(deleted := true)];
          }
          outcome := Noted;
        case _ =>
          var error := CompleteQboSyncRun(op);
          outcome := if error.None? then Completed else Failure(error.value);
      }
      if outcome.Failure? {
        rows, log, outbox := savedRows, savedLog, savedOutbox;
      }
    }
  }
}
