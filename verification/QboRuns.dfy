/** What every run of transactions keeps in the `qbo_sync_runs` store. */
module QboRuns {
  import opened Basics
  import opened Workflow
  import opened QboSyncRun

  // ---------- runs of transactions ----------

  function RunOps(store: Store, ops: seq<Op>): (Store, seq<Outcome>)
    decreases |ops|
  {
    if ops == [] then (store, [])
    else
      var (store1, outcome) := Step(store, ops[0]);
      var (store2, outcomes) := RunOps(store1, ops[1..]);
      (store2, [outcome] + outcomes)
  }

  const EMPTY := Store(map[], [], map[])

  // ---------- the log of one run ----------

  function LogOf(log: seq<LogRow>, runId: string): seq<LogRow> {
    if log == [] then []
    else LogOf(log[..|log| - 1], runId) + (if log[|log| - 1].entityId == runId then [log[|log| - 1]] else [])
  }

  lemma LogOfSnoc(log: seq<LogRow>, row: LogRow, runId: string)
    ensures LogOf(log + [row], runId) == LogOf(log, runId) + (if row.entityId == runId then [row] else [])
  {
    assert (log + [row])[..|log|] == log;
  }

  lemma {:induction false} LogOfComplete(log: seq<LogRow>, runId: string, i: nat)
    requires i < |log| && log[i].entityId == runId
    ensures exists j :: 0 <= j < |LogOf(log, runId)| && LogOf(log, runId)[j] == log[i]
  {
    if i == |log| - 1 {
      assert LogOf(log, runId)[|LogOf(log, runId)| - 1] == log[i];
    } else {
      LogOfComplete(log[..|log| - 1], runId, i);
      var j :| 0 <= j < |LogOf(log[..|log| - 1], runId)| && LogOf(log[..|log| - 1], runId)[j] == log[i];
      assert LogOf(log, runId)[j] == log[i];
    }
  }

  // ---------- the shape of a reachable log ----------

  /** What the row gives back for a snapshot it was written from: the payload column is never null. */
  function Reloaded(snapshot: Snapshot): Snapshot {
    snapshot.(payload := Val(if snapshot.payload.Val? then snapshot.payload.value else PAYLOAD_DEFAULT))
  }

  predicate NothingAbsent(s: Snapshot) {
    !s.startedAt.Absent? && !s.succeededAt.Absent? && !s.failedAt.Absent? && !s.retriedAt.Absent? && !s.error.Absent?
    && !s.payload.Absent? && !s.triggeredBy.Absent?
  }

  predicate Complete(event: Event) {
    match event
    case StartSync(_, who) => who.Val?
    case Retry(_, who) => who.Val?
    case SyncSucceeded(_, payload) => payload.Val?
    case SyncFailed(_, _) => true
  }

  /** The snapshot that entry `i` was computed from. */
  function Before(log: seq<LogRow>, i: nat): Snapshot
    requires i < |log|
  {
    if i == 0 then Snapshot(Pending, 1, Null, Null, Null, Null, Null, Null, Null) else Reloaded(log[i - 1].snapshotAfter)
  }

  predicate Entry(row: LogRow, company: string, runId: string, version: int) {
    row.company == company && row.workflowName == WORKFLOW_NAME && row.schemaVersion == SCHEMA_VERSION
    && row.entityType == "qbo_sync_run" && row.entityId == runId && row.stateVersion == version
    && Complete(row.event) && NothingAbsent(row.snapshotAfter)
  }

  /** Versions 1, 2, 3, ... once each, and every snapshot the reducer's answer to the reloaded row. */
  predicate Chain(log: seq<LogRow>, company: string, runId: string) {
    log != [] ==>
      var last := |log| - 1;
      Chain(log[..last], company, runId) && Entry(log[last], company, runId, last + 1)
      && Transition(Before(log, last), log[last].event) == Ok(log[last].snapshotAfter)
  }

  function Requests(log: seq<LogRow>): nat {
    if log == [] then 0
    else Requests(log[..|log| - 1]) + (if log[|log| - 1].event.StartSync? || log[|log| - 1].event.Retry? then 1 else 0)
  }

  predicate RunInv(row: Row, log: seq<LogRow>) {
    log != [] && Chain(log, row.company, row.id)
    && RowToSnapshot(row) == Reloaded(log[|log| - 1].snapshotAfter) && row.stateVersion == |log| + 1
  }

  function AnchorKey(row: Row): (string, string) {
    (row.company, RunKey(row.id))
  }

  predicate Anchored(row: Row, log: seq<LogRow>, outbox: map<(string, string), OutboxRow>) {
    var key := AnchorKey(row);
    key in outbox && outbox[key].entityId == row.id && outbox[key].mutationType == "run_qbo_sync"
    && outbox[key].attemptCount == Requests(log) - 1
  }

  /** What holds of one run: its row, its log and its outbox anchor fit together. */
  predicate RunHolds(store: Store, runId: string) {
    if runId in store.rows then
      store.rows[runId].id == runId && RunInv(store.rows[runId], LogOf(store.log, runId))
      && Anchored(store.rows[runId], LogOf(store.log, runId), store.outbox)
    else LogOf(store.log, runId) == []
  }

  predicate Owned(store: Store, key: (string, string)) {
    key in store.outbox ==>
      store.outbox[key].entityId in store.rows && key == (store.rows[store.outbox[key].entityId].company,
          RunKey(store.outbox[key].entityId))
  }

  ghost predicate Inv(store: Store) {
    (forall id :: RunHolds(store, id)) && (forall key :: Owned(store, key))
  }

  // ---------- one transaction ----------

  lemma ChainSnoc(log: seq<LogRow>, row: LogRow, company: string, runId: string)
    requires Chain(log, company, runId) && Entry(row, company, runId, |log| + 1)
    requires Transition(if log == [] then Before([row], 0) else Reloaded(log[|log| - 1].snapshotAfter), row.event) == Ok(row.snapshotAfter)
    ensures Chain(log + [row], company, runId)
    ensures Requests(log + [row]) == Requests(log) + (if row.event.StartSync? || row.event.Retry? then 1 else 0)
  {
    assert (log + [row])[..|log|] == log;
  }

  lemma {:induction false} ChainAt(log: seq<LogRow>, company: string, runId: string, i: nat)
    requires Chain(log, company, runId) && i < |log|
    ensures Entry(log[i], company, runId, i + 1)
    ensures Transition(Before(log, i), log[i].event) == Ok(log[i].snapshotAfter)
  {
    if i < |log| - 1 {
      ChainAt(log[..|log| - 1], company, runId, i);
    }
  }

  /** In a reachable store the unique key of the event log never rejects the next transition of a
      run. */
  lemma NextVersionIsFree(store: Store, row: LogRow)
    requires RunHolds(store, row.entityId)
    requires row.entityId in store.rows ==> row.stateVersion == store.rows[row.entityId].stateVersion
    ensures !AlreadyLogged(store.log, row)
  {
    var mine := LogOf(store.log, row.entityId);
    forall i | 0 <= i < |store.log| && store.log[i].entityId == row.entityId
      ensures store.log[i].stateVersion != row.stateVersion
    {
      LogOfComplete(store.log, row.entityId, i);
      var j :| 0 <= j < |mine| && mine[j] == store.log[i];
      ChainAt(mine, store.rows[row.entityId].company, row.entityId, j);
    }
  }

  lemma KeysDiffer(a: string, b: string)
    ensures RunKey(a) == RunKey(b) ==> a == b
  {
    var prefix := |"qbo_sync_run:run:"|;
    assert a == RunKey(a)[prefix..] && b == RunKey(b)[prefix..];
  }

  /** Writing a row, its log entry and its outbox anchor keeps every other run as it is. */
  lemma WriteKeepsOthers(store: Store, row: Row, entry: LogRow, outbox: map<(string, string), OutboxRow>, id: string)
    requires RunHolds(store, id) && id != row.id && entry.entityId == row.id
    requires forall key :: key in store.outbox && key != AnchorKey(row) ==> key in outbox && outbox[key] == store.outbox[key]
    ensures RunHolds(Store(store.rows[row.id := row], store.log + [entry], outbox), id)
  {
    LogOfSnoc(store.log, entry, id);
    assert LogOf(store.log + [entry], id) == LogOf(store.log, id);
    KeysDiffer(id, row.id);
  }

  lemma WriteKeepsInv(store: Store, row: Row, entry: LogRow, outbox: map<(string, string), OutboxRow>)
    requires Inv(store) && entry.entityId == row.id
    requires row.id in store.rows ==> row.company == store.rows[row.id].company
    requires RunInv(row, LogOf(store.log, row.id) + [entry]) && Anchored(row, LogOf(store.log, row.id) + [entry], outbox)
    requires outbox.Keys == store.outbox.Keys + {AnchorKey(row)}
    requires forall key :: key in store.outbox && key != AnchorKey(row) ==> key in outbox && outbox[key] == store.outbox[key]
    ensures Inv(Store(store.rows[row.id := row], store.log + [entry], outbox))
  {
    var after := Store(store.rows[row.id := row], store.log + [entry], outbox);
    forall id ensures RunHolds(after, id) {
      assert RunHolds(store, id);
      if id == row.id {
        LogOfSnoc(store.log, entry, id);
      } else {
        WriteKeepsOthers(store, row, entry, outbox, id);
      }
    }
    forall key ensures Owned(after, key) {
      assert Owned(store, key);
    }
  }

  lemma FreshAnchor(store: Store, company: string, runId: string)
    requires Inv(store) && runId !in store.rows
    ensures (company, RunKey(runId)) !in store.outbox
  {
    var key := (company, RunKey(runId));
    assert Owned(store, key);
    if key in store.outbox {
      KeysDiffer(store.outbox[key].entityId, runId);
    }
  }

  /** The row and the log entry that starting a run writes. */
  function StartedRow(op: Op): Row
    requires op.Start?
  {
    PendingRow(op).(status := Syncing, stateVersion := 2, startedAt := Some(op.now), version := 2)
  }

  function StartedEntry(op: Op): LogRow
    requires op.Start?
  {
    var event := StartSync(op.now, Val(op.triggeredBy));
    LogFor(op.company, op.newId, 1, event, Snapshot(Syncing, 2, Val(op.now), Null, Null, Null, Null, Null,
        Val(op.triggeredBy)), op.triggeredBy)
  }

  lemma StartEffect(store: Store, op: Op)
    requires op.Start? && op.newId !in store.rows && !AlreadyLogged(store.log, StartedEntry(op))
    ensures Step(store, op).0 == Store(store.rows[op.newId := StartedRow(op)], store.log + [StartedEntry(op)],
        Enqueued(store.outbox, op.company, RunKey(op.newId), OutboxFor(op.newId, op.connection, op.triggeredBy)))
    ensures Step(store, op).1.Started?
  {
  }

  lemma StartKeepsInv(store: Store, op: Op)
    requires Inv(store) && op.Start?
    ensures Inv(Step(store, op).0)
    ensures Step(store, op).1 != Failure(Http(409))
  {
    if op.newId !in store.rows {
      assert RunHolds(store, op.newId);
      var entry := StartedEntry(op);
      NextVersionIsFree(store, entry);
      StartEffect(store, op);
      FreshAnchor(store, op.company, op.newId);
      ChainSnoc([], entry, op.company, op.newId);
      assert LogOf(store.log, op.newId) + [entry] == [] + [entry];
      WriteKeepsInv(store, StartedRow(op), entry, Step(store, op).0.outbox);
    }
  }

  /** The facts about a run that the next transition of it starts from. */
  lemma NextTransition(store: Store, row: Row, event: Event, next: Snapshot, actor: string)
    requires Inv(store) && row.id in store.rows && store.rows[row.id] == row
    requires Transition(RowToSnapshot(row), event) == Ok(next) && Complete(event)
    ensures var entry, log := LogFor(row.company, row.id, row.stateVersion, event, next, actor), LogOf(store.log, row.id);
      !AlreadyLogged(store.log, entry) && log != [] && Chain(log + [entry], row.company, row.id) && NothingAbsent(next)
      && row.stateVersion == |log| + 1 && AnchorKey(row) in store.outbox && Anchored(row, log, store.outbox)
      && Requests(log + [entry]) == Requests(log) + (if event.StartSync? || event.Retry? then 1 else 0)
  {
    assert RunHolds(store, row.id);
    var entry, log := LogFor(row.company, row.id, row.stateVersion, event, next, actor), LogOf(store.log, row.id);
    NextVersionIsFree(store, entry);
    assert NothingAbsent(RowToSnapshot(row));
    ChainSnoc(log, entry, row.company, row.id);
  }

  lemma CompleteKeepsInv(store: Store, op: Op)
    requires Inv(store) && (op.Succeed? || op.Fail?)
    ensures Inv(Step(store, op).0)
    ensures Step(store, op).1.Failure? <==> FindRun(store, op.company, op.runId).Some? && store.rows[op.runId].status != Syncing
    ensures Step(store, op).1 != Failure(Http(409))
  {
    var found := FindRun(store, op.company, op.runId);
    if found.Some? && found.value.status == Syncing {
      assert RunHolds(store, op.runId);
      var event := CompletionEvent(op);
      var next := Transition(RowToSnapshot(found.value), event).value;
      var row := CompletedRow(op, found.value, next);
      var entry := LogFor(op.company, op.runId, found.value.stateVersion, event, next, op.triggeredBy);
      NextTransition(store, found.value, event, next, op.triggeredBy);
      assert Step(store, op) == (Store(store.rows[op.runId := row], store.log + [entry], store.outbox), Completed);
      assert RowToSnapshot(row) == Reloaded(next);
      WriteKeepsInv(store, row, entry, store.outbox);
    }
  }

  predicate Accepts(store: Store, op: Op)
    requires op.Human?
  {
    var found := FindRun(store, op.company, op.runId);
    found.Some? && !found.value.deleted && found.value.stateVersion == op.expectedVersion
    && Legal(found.value.status, HumanEventFor(op))
  }

  /** The row, the log entry and the outbox that an accepted human event leaves. */
  lemma HumanEffect(store: Store, op: Op, next: Snapshot)
    requires op.Human? && Accepts(store, op) && Transition(RowToSnapshot(store.rows[op.runId]), HumanEventFor(op)) == Ok(next)
    requires !AlreadyLogged(store.log, LogFor(op.company, op.runId, op.expectedVersion, HumanEventFor(op), next, op.actor))
    ensures var row := DispatchedRow(store.rows[op.runId], next);
      var entry := LogFor(op.company, op.runId, op.expectedVersion, HumanEventFor(op), next, op.actor);
      var outbox := Enqueued(store.outbox, op.company, RunKey(op.runId), OutboxFor(op.runId, row.connection, op.actor));
      Step(store, op) == (Store(store.rows[op.runId := row], store.log + [entry], outbox), HumanOutcome(Dispatched(row, next)))
  {
  }

  lemma HumanLoses(store: Store, op: Op)
    requires op.Human? && !Accepts(store, op)
    ensures Step(store, op).0 == store && Step(store, op).1.HumanOutcome? && !Step(store, op).1.result.Dispatched?
  {
  }

  lemma HumanWins(store: Store, op: Op, found: Row, next: Snapshot)
    requires Inv(store) && op.Human? && Accepts(store, op) && found == store.rows[op.runId]
    requires Transition(RowToSnapshot(found), HumanEventFor(op)) == Ok(next)
    ensures var row := DispatchedRow(found, next);
      var entry := LogFor(op.company, op.runId, op.expectedVersion, HumanEventFor(op), next, op.actor);
      var outbox := Enqueued(store.outbox, op.company, RunKey(op.runId), OutboxFor(op.runId, row.connection, op.actor));
      && !AlreadyLogged(store.log, entry)
      && Inv(Store(store.rows[op.runId := row], store.log + [entry], outbox))
  {
    assert RunHolds(store, op.runId);
    var event, row := HumanEventFor(op), DispatchedRow(found, next);
    NextTransition(store, found, event, next, op.actor);
    assert RowToSnapshot(row) == Reloaded(next);
    WriteKeepsInv(store, row, LogFor(op.company, op.runId, op.expectedVersion, event, next, op.actor),
      Enqueued(store.outbox, op.company, RunKey(op.runId), OutboxFor(op.runId, row.connection, op.actor)));
  }

  /** A human event is accepted exactly when the run is there, not deleted, at the expected version
      and in a state the reducer allows; then it raises the version by one, logs one entry and
      leaves the anchor pending.  Otherwise it changes nothing, and it never fails. */
  lemma HumanKeepsInv(store: Store, op: Op)
    requires Inv(store) && op.Human?
    ensures Inv(Step(store, op).0)
    ensures Step(store, op).1.HumanOutcome?
    ensures Step(store, op).1.result.Dispatched? <==> Accepts(store, op)
    ensures !Accepts(store, op) ==> Step(store, op).0 == store
    ensures Accepts(store, op) ==>
      var after, snapshot := Step(store, op).0, Step(store, op).1.result.snapshot;
      op.runId in after.rows && after.rows[op.runId].stateVersion == op.expectedVersion + 1
      && after.log == store.log + [LogFor(op.company, op.runId, op.expectedVersion, HumanEventFor(op), snapshot, op.actor)]
      && (op.company, RunKey(op.runId)) in after.outbox && after.outbox[(op.company, RunKey(op.runId))].status == "pending"
  {
    if Accepts(store, op) {
      var found := store.rows[op.runId];
      var next := Transition(RowToSnapshot(found), HumanEventFor(op)).value;
      HumanWins(store, op, found, next);
      HumanEffect(store, op, next);
    } else {
      HumanLoses(store, op);
    }
  }

  lemma OtherWritesKeepInv(store: Store, op: Op)
    requires Inv(store) && (op.WorkerMarks? || op.SoftDelete?)
    ensures Inv(Step(store, op).0)
  {
    var after := Step(store, op).0;
    forall id ensures RunHolds(after, id) {
      assert RunHolds(store, id);
    }
    forall key ensures Owned(after, key) {
      assert Owned(store, key);
    }
  }

  lemma StepKeepsInv(store: Store, op: Op)
    requires Inv(store)
    ensures Inv(Step(store, op).0)
    ensures Step(store, op).1 != Failure(Http(409))
  {
    match op
    case Start(_, _, _, _, _) => StartKeepsInv(store, op);
    case Human(_, _, _, _, _, _) => HumanKeepsInv(store, op);
    case WorkerMarks(_, _, _) => OtherWritesKeepInv(store, op);
    case SoftDelete(_, _) => OtherWritesKeepInv(store, op);
    case _ => CompleteKeepsInv(store, op);
  }

  /** In every reachable store each run's log holds the versions below the row's once each, each
      snapshot is the reducer's answer, the row equals the last one up to the payload default, and
      the run has one outbox anchor; no transaction is ever rejected by the log's unique key. */
  lemma {:induction false} ReachableInv(store: Store, ops: seq<Op>)
    requires Inv(store)
    ensures Inv(RunOps(store, ops).0)
    ensures |RunOps(store, ops).1| == |ops|
    ensures forall i :: 0 <= i < |ops| ==> RunOps(store, ops).1[i] != Failure(Http(409))
    decreases |ops|
  {
    if ops != [] {
      StepKeepsInv(store, ops[0]);
      ReachableInv(Step(store, ops[0]).0, ops[1..]);
    }
  }

  lemma EmptyInv()
    ensures Inv(EMPTY)
  {
  }

  // ---------- versions and the exclusivity of dispatches ----------

  lemma VersionsOnlyGrow(store: Store, op: Op, runId: string)
    requires runId in store.rows
    ensures runId in Step(store, op).0.rows
    ensures store.rows[runId].stateVersion <= Step(store, op).0.rows[runId].stateVersion <= store.rows[runId].stateVersion + 1
  {
  }

  lemma {:induction false} VersionsOnlyGrowInRuns(store: Store, ops: seq<Op>, runId: string)
    requires runId in store.rows
    ensures runId in RunOps(store, ops).0.rows
    ensures store.rows[runId].stateVersion <= RunOps(store, ops).0.rows[runId].stateVersion
    decreases |ops|
  {
    if ops != [] {
      VersionsOnlyGrow(store, ops[0], runId);
      VersionsOnlyGrowInRuns(Step(store, ops[0]).0, ops[1..], runId);
    }
  }

  predicate SameAim(a: Op, b: Op) {
    a.Human? && b.Human? && a.runId == b.runId && a.expectedVersion == b.expectedVersion
  }

  predicate Won(outcome: Outcome) {
    outcome.HumanOutcome? && outcome.result.Dispatched?
  }

  /** Once the version has passed, no dispatch that expects it wins any more. */
  lemma {:induction false} NoLateWinner(store: Store, ops: seq<Op>, aim: Op, i: nat)
    requires Inv(store) && aim.Human? && aim.runId in store.rows && aim.expectedVersion < store.rows[aim.runId].stateVersion
    requires i < |ops| && SameAim(aim, ops[i])
    ensures |RunOps(store, ops).1| == |ops| && !Won(RunOps(store, ops).1[i])
    decreases |ops|
  {
    ReachableInv(store, ops);
    var store1 := Step(store, ops[0]).0;
    if i == 0 {
      HumanKeepsInv(store, ops[0]);
    } else {
      VersionsOnlyGrow(store, ops[0], aim.runId);
      StepKeepsInv(store, ops[0]);
      NoLateWinner(store1, ops[1..], aim, i - 1);
    }
  }

  /** Among any number of human dispatches on one run that carry the same expected version, in any
      run of transactions, at most one wins. */
  lemma {:induction false} AtMostOneWinner(store: Store, ops: seq<Op>, i: nat, j: nat)
    requires Inv(store) && i < j < |ops| && SameAim(ops[i], ops[j])
    requires |RunOps(store, ops).1| == |ops| && Won(RunOps(store, ops).1[i])
    ensures !Won(RunOps(store, ops).1[j])
    decreases |ops|
  {
    var store1 := Step(store, ops[0]).0;
    StepKeepsInv(store, ops[0]);
    ReachableInv(store1, ops[1..]);
    if i == 0 {
      HumanKeepsInv(store, ops[0]);
      NoLateWinner(store1, ops[1..], ops[0], j - 1);
    } else {
      AtMostOneWinner(store1, ops[1..], i - 1, j - 1);
    }
  }

  /** Exactly one outbox row belongs to each run; its attempts count the starts and retries after
      the first one. */
  lemma OneAnchorPerRun(ops: seq<Op>, runId: string)
    requires runId in RunOps(EMPTY, ops).0.rows
    ensures var store := RunOps(EMPTY, ops).0;
      var key := (store.rows[runId].company, RunKey(runId));
      (forall k :: k in store.outbox && store.outbox[k].entityId == runId <==> k == key)
      && store.outbox[key].mutationType == "run_qbo_sync"
      && store.outbox[key].attemptCount == Requests(LogOf(store.log, runId)) - 1
  {
    EmptyInv();
    ReachableInv(EMPTY, ops);
    var store := RunOps(EMPTY, ops).0;
    assert RunHolds(store, runId);
    forall k | k in store.outbox && store.outbox[k].entityId == runId ensures k == AnchorKey(store.rows[runId]) {
      assert Owned(store, k);
    }
  }
}
