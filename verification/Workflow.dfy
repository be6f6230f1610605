/** The registered `qbo_sync_run` reducer (packages/workflows/src/qbo-sync-run.ts) and the replay
    that feeds a logged run back through it (packages/workflows/src/replay.ts). */
module Workflow {
  import opened Basics

  // ---------- values ----------

  datatype Json =
    | JNull | JBool(b: bool) | JNumber(n: real) | JString(s: string)
    | JArray(items: seq<Json>) | JObject(fields: Record)

  type Record = map<string, Json>

  /** A property of a JavaScript object: missing, null, or a value. */
  datatype Field<T> = Absent | Null | Val(value: T)

  /** `a ?? b` */
  function OrElse<T>(a: Field<T>, b: Field<T>): Field<T> {
    if a.Val? then a else b
  }

  // ---------- the reducer ----------

  datatype RunState = Pending | Syncing | Succeeded | Failed | Retrying

  datatype Event =
    | StartSync(startedAt: string, startedBy: Field<string>)
    | SyncSucceeded(succeededAt: string, payload: Field<Record>)
    | SyncFailed(failedAt: string, error: string)
    | Retry(retriedAt: string, retriedBy: Field<string>)

  datatype Snapshot = Snapshot(
    state: RunState, stateVersion: int,
    startedAt: Field<string>, succeededAt: Field<string>, failedAt: Field<string>, retriedAt: Field<string>,
    error: Field<string>, payload: Field<Record>, triggeredBy: Field<string>)

  predicate Legal(state: RunState, event: Event) {
    match event
    case StartSync(_, _) => state == Pending || state == Retrying
    case SyncSucceeded(_, _) => state == Syncing
    case SyncFailed(_, _) => state == Syncing
    case Retry(_, _) => state == Failed
  }

  /** `transitionQboSyncRunWorkflow`; the error is the thrown "illegal transition". */
  function Transition(snapshot: Snapshot, event: Event): Result<Snapshot, string> {
    if !Legal(snapshot.state, event) then Err("illegal transition")
    else
      var next := snapshot.(stateVersion := snapshot.stateVersion + 1);
      match event
      case StartSync(at, who) =>
        Ok(next.(state := Syncing, startedAt := Val(at), triggeredBy := OrElse(OrElse(who, snapshot.triggeredBy), Null), error := Null))
      case SyncSucceeded(at, payload) =>
        Ok(next.(state := Succeeded, succeededAt := Val(at), payload := OrElse(OrElse(payload, snapshot.payload), Null), error := Null))
      case SyncFailed(at, error) =>
        Ok(next.(state := Failed, failedAt := Val(at), error := Val(error)))
      case Retry(at, who) =>
        Ok(next.(state := Retrying, retriedAt := Val(at), triggeredBy := OrElse(OrElse(who, snapshot.triggeredBy), Null)))
  }

  // ---------- semantic equality of snapshots ----------

  /** `snapshotsEqual` on JSON values: a missing property equals null and nothing else. */
  predicate JsonEqual(a: Json, b: Json)
    decreases a
  {
    match (a, b)
    case (JNull, JNull) => true
    case (JBool(x), JBool(y)) => x == y
    case (JNumber(x), JNumber(y)) => x == y
    case (JString(x), JString(y)) => x == y
    case (JArray(x), JArray(y)) => |x| == |y| && forall i :: 0 <= i < |x| ==> JsonEqual(x[i], y[i])
    case (JObject(x), JObject(y)) =>
      forall k :: k in x.Keys + y.Keys ==>
        if k !in x then y[k].JNull? else if k !in y then x[k].JNull? else JsonEqual(x[k], y[k])
    case _ => false
  }

  predicate RecordsEqual(a: Record, b: Record) {
    JsonEqual(JObject(a), JObject(b))
  }

  predicate SameText(a: Field<string>, b: Field<string>) {
    a == b || (!a.Val? && !b.Val?)
  }

  predicate SamePayload(a: Field<Record>, b: Field<Record>) {
    if a.Val? && b.Val? then RecordsEqual(a.value, b.value) else !a.Val? && !b.Val?
  }

  /** Every property but the sync payload agrees. */
  predicate SnapshotsEqualButPayload(a: Snapshot, b: Snapshot) {
    a.state == b.state && a.stateVersion == b.stateVersion && SameText(a.startedAt, b.startedAt)
    && SameText(a.succeededAt, b.succeededAt) && SameText(a.failedAt, b.failedAt) && SameText(a.retriedAt, b.retriedAt)
    && SameText(a.error, b.error) && SameText(a.triggeredBy, b.triggeredBy)
  }

  predicate SnapshotsEqual(a: Snapshot, b: Snapshot) {
    SnapshotsEqualButPayload(a, b) && SamePayload(a.payload, b.payload)
  }

  lemma {:induction false} JsonReflexive(a: Json)
    ensures JsonEqual(a, a)
  {
    match a
    case JArray(items) =>
      forall i | 0 <= i < |items| ensures JsonEqual(items[i], items[i]) {
        JsonReflexive(items[i]);
      }
    case JObject(fields) =>
      forall k | k in fields ensures JsonEqual(fields[k], fields[k]) {
        JsonReflexive(fields[k]);
      }
    case _ =>
  }

  lemma {:induction false} JsonSymmetric(a: Json, b: Json)
    requires JsonEqual(a, b)
    ensures JsonEqual(b, a)
    decreases a
  {
    match (a, b)
    case (JArray(x), JArray(y)) =>
      forall i | 0 <= i < |y| ensures JsonEqual(y[i], x[i]) {
        JsonSymmetric(x[i], y[i]);
      }
    case (JObject(x), JObject(y)) =>
      forall k | k in x && k in y ensures JsonEqual(y[k], x[k]) {
        JsonSymmetric(x[k], y[k]);
      }
    case _ =>
  }

  // ---------- replay ----------

  const WORKFLOW_NAME := "qbo_sync_run"
  const SCHEMA_VERSION := 1

  datatype LogRow = LogRow(
    company: string, workflowName: string, schemaVersion: int, entityType: string, entityId: string,
    stateVersion: int, event: Event, snapshotAfter: Snapshot, actor: Field<string>)

  datatype Reason = SchemaVersionMismatch | SnapshotDivergence | IllegalTransition | UnknownWorkflow | Gap

  datatype Issue = Issue(stateVersion: int, event: Event, reason: Reason)

  datatype ReplayResult = ReplayResult(ok: bool, final: Option<Snapshot>, issues: seq<Issue>)

  function Diverged(row: LogRow, reason: Reason): ReplayResult {
    ReplayResult(false, None, [Issue(row.stateVersion, row.event, reason)])
  }

  /** The replay loop from a given snapshot on. */
  function ReplayFrom(snapshot: Snapshot, expectedVersion: int, log: seq<LogRow>): ReplayResult
    decreases |log|
  {
    if log == [] then ReplayResult(true, Some(snapshot), [])
    else if log[0].schemaVersion != SCHEMA_VERSION then Diverged(log[0], SchemaVersionMismatch)
    else if log[0].stateVersion != expectedVersion then Diverged(log[0], Gap)
    else
      var next := Transition(snapshot, log[0].event);
      if next.Err? then Diverged(log[0], IllegalTransition)
      else if !SnapshotsEqual(next.value, log[0].snapshotAfter) then Diverged(log[0], SnapshotDivergence)
      else ReplayFrom(next.value, next.value.stateVersion, log[1..])
  }

  /** `applyEventLog` with this one workflow registered. */
  function Replayed(initial: Snapshot, log: seq<LogRow>): ReplayResult {
    if log == [] then ReplayResult(true, Some(initial), [])
    else if log[0].workflowName != WORKFLOW_NAME then Diverged(log[0], UnknownWorkflow)
    else ReplayFrom(initial, initial.stateVersion, log)
  }

  method ApplyEventLog(initial: Snapshot, log: seq<LogRow>) returns (result: ReplayResult)
    ensures result == Replayed(initial, log)
  {
    if |log| == 0 {
      return ReplayResult(true, Some(initial), []);
    }
    if log[0].workflowName != WORKFLOW_NAME {
      return ReplayResult(false, None, [Issue(log[0].stateVersion, log[0].event, UnknownWorkflow)]);
    }
    var snapshot := initial;
    var expectedVersion := initial.stateVersion;
    for i := 0 to |log|
      invariant ReplayFrom(initial, initial.stateVersion, log) == ReplayFrom(snapshot, expectedVersion, log[i..])
    {
      var row := log[i];
      assert log[i..][0] == row && log[i..][1..] == log[i + 1..];
      if row.schemaVersion != SCHEMA_VERSION {
        return Diverged(row, SchemaVersionMismatch);
      }
      if row.stateVersion != expectedVersion {
        return Diverged(row, Gap);
      }
      var next := Transition(snapshot, row.event);
      if next.Err? {
        return Diverged(row, IllegalTransition);
      }
      if !SnapshotsEqual(next.value, row.snapshotAfter) {
        return Diverged(row, SnapshotDivergence);
      }
      snapshot := next.value;
      expectedVersion := next.value.stateVersion;
    }
    result := ReplayResult(true, Some(snapshot), []);
  }

  /** The bare snapshot a replay starts from: the initial state and nothing else. */
  function BareInitial(stateVersion: int): Snapshot {
    Snapshot(Pending, stateVersion, Absent, Absent, Absent, Absent, Absent, Absent, Absent)
  }

  /** `replayBracket`; `None` when the workflow is not registered. */
  function ReplayBracket(rows: seq<LogRow>): Option<ReplayResult> {
    if rows == [] then Some(ReplayResult(true, None, []))
    else if rows[0].workflowName != WORKFLOW_NAME then None
    else Some(Replayed(BareInitial(rows[0].stateVersion), rows))
  }

  datatype ReplayView = Unavailable | Available(ok: bool, entriesReplayed: nat, firstDivergence: Option<Issue>, issues: seq<Issue>)

  function ViewOf(rows: seq<LogRow>): ReplayView {
    var result := ReplayBracket(rows);
    if result.None? then Unavailable
    else Available(result.value.ok, |rows|, if result.value.issues == [] then None else Some(result.value.issues[0]), result.value.issues)
  }

  /** A replay reports at most one issue, and exactly when it is not ok. */
  lemma {:induction false} ReplayStopsAtFirstIssue(snapshot: Snapshot, expectedVersion: int, log: seq<LogRow>)
    ensures var result := ReplayFrom(snapshot, expectedVersion, log);
      (result.ok <==> result.issues == []) && (result.ok <==> result.final.Some?) && |result.issues| <= 1
    decreases |log|
  {
    if log != [] && Transition(snapshot, log[0].event).Ok? {
      var next := Transition(snapshot, log[0].event).value;
      ReplayStopsAtFirstIssue(next, next.stateVersion, log[1..]);
    }
  }

  /** The pure fold of the reducer over a log, ignoring what was persisted. */
  function Fold(snapshot: Snapshot, log: seq<LogRow>): Result<Snapshot, string>
    decreases |log|
  {
    if log == [] then Ok(snapshot)
    else
      var next := Transition(snapshot, log[0].event);
      if next.Err? then next else Fold(next.value, log[1..])
  }

  lemma {:induction false} FoldSnoc(snapshot: Snapshot, log: seq<LogRow>, row: LogRow)
    ensures Fold(snapshot, log + [row])
      == if Fold(snapshot, log).Err? then Fold(snapshot, log) else Transition(Fold(snapshot, log).value, row.event)
    decreases |log|
  {
    if log == [] {
      assert (log + [row])[1..] == [];
    } else {
      assert (log + [row])[1..] == log[1..] + [row];
      var next := Transition(snapshot, log[0].event);
      if next.Ok? {
        FoldSnoc(next.value, log[1..], row);
      }
    }
  }
}
