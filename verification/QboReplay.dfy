/** Replaying a reachable run: the bracket of apps/api/src/anchor-resolve.ts and the live-row
    comparison of scripts/replay-workflow.ts. */
module QboReplay {
  import opened Basics
  import opened Sorting
  import opened Workflow
  import opened QboSyncRun
  import opened QboRuns

  // ---------- loading ----------

  const BRACKET_LIMIT := 500

  function OfEntity(company: string, runId: string): LogRow -> bool {
    (row: LogRow) => row.company == company && row.workflowName == WORKFLOW_NAME && row.entityType == "qbo_sync_run" && row.entityId == runId
  }

  function Version(): LogRow -> int {
    (row: LogRow) => row.stateVersion
  }

  /** `loadEntityBracket`: the entity's entries by version, at most 500 of them. */
  function Bracket(store: Store, company: string, runId: string): seq<LogRow> {
    var rows := SortBy(Filter(store.log, OfEntity(company, runId)), Version());
    if |rows| <= BRACKET_LIMIT then rows else rows[..BRACKET_LIMIT]
  }

  lemma {:induction false} FilterIsLogOf(log: seq<LogRow>, company: string, runId: string)
    requires forall i :: 0 <= i < |log| && log[i].entityId == runId ==>
      log[i].company == company && log[i].workflowName == WORKFLOW_NAME && log[i].entityType == "qbo_sync_run"
    ensures Filter(log, OfEntity(company, runId)) == LogOf(log, runId)
  {
    if log != [] {
      var shorter, last := log[..|log| - 1], log[|log| - 1];
      FilterIsLogOf(shorter, company, runId);
      FilterAppends(shorter, [last], OfEntity(company, runId));
      assert log == shorter + [last];
      assert Filter([last], OfEntity(company, runId)) == if last.entityId == runId then [last] else [];
    }
  }

  /** In a reachable store the bracket is the run's own log, cut at 500 entries. */
  lemma BracketIsLog(store: Store, runId: string)
    requires Inv(store) && runId in store.rows
    ensures var log := LogOf(store.log, runId);
      Bracket(store, store.rows[runId].company, runId) == if |log| <= BRACKET_LIMIT then log else log[..BRACKET_LIMIT]
    ensures Filter(store.log, OfEntity(store.rows[runId].company, runId)) == LogOf(store.log, runId)
  {
    assert RunHolds(store, runId);
    var company, log := store.rows[runId].company, LogOf(store.log, runId);
    forall i | 0 <= i < |store.log| && store.log[i].entityId == runId
      ensures Entry(store.log[i], company, runId, store.log[i].stateVersion)
    {
      LogOfComplete(store.log, runId, i);
      var j :| 0 <= j < |log| && log[j] == store.log[i];
      ChainAt(log, company, runId, j);
    }
    FilterIsLogOf(store.log, company, runId);
    forall i, j | 0 <= i < j < |log| ensures log[i].stateVersion <= log[j].stateVersion {
      ChainAt(log, company, runId, i);
      ChainAt(log, company, runId, j);
    }
    SortIdentity(log, Version());
  }

  lemma {:induction false} ChainPrefix(log: seq<LogRow>, company: string, runId: string, n: nat)
    requires Chain(log, company, runId) && n <= |log|
    ensures Chain(log[..n], company, runId)
  {
    if n < |log| {
      ChainPrefix(log[..|log| - 1], company, runId, n);
      assert log[..|log| - 1][..n] == log[..n];
    } else {
      assert log[..n] == log;
    }
  }

  // ---------- what the persisted snapshots are ----------

  /** Success only ever comes last, the first entry starts the run, and a payload is persisted as
      null first, as the column default until the run succeeds, and as the result then. */
  lemma ChainShape(log: seq<LogRow>, company: string, runId: string, i: nat)
    requires Chain(log, company, runId) && i < |log|
    ensures i == 0 <==> log[i].event.StartSync? && log[i].snapshotAfter.payload == Null
    ensures log[i].event.SyncSucceeded? ==> i == |log| - 1 && log[i].snapshotAfter.payload == log[i].event.payload
    ensures i > 0 && !log[i].event.SyncSucceeded? ==> log[i].snapshotAfter.payload == Val(PAYLOAD_DEFAULT)
    decreases i
  {
    ChainAt(log, company, runId, i);
    if i + 1 < |log| {
      ChainAt(log, company, runId, i + 1);
    }
    if i > 0 {
      ChainShape(log, company, runId, i - 1);
    }
  }

  // ---------- the pure fold ----------

  /** The reducer does not look at the difference between null and missing, nor at the payload. */
  lemma TransitionRespects(a: Snapshot, b: Snapshot, event: Event)
    requires SnapshotsEqualButPayload(a, b)
    ensures Transition(a, event).Ok? <==> Transition(b, event).Ok?
    ensures Transition(a, event).Ok? ==> SnapshotsEqualButPayload(Transition(a, event).value, Transition(b, event).value)
  {
  }

  /** Folding the reducer over the first entries from the bare initial snapshot reproduces every
      column but the payload. */
  lemma {:induction false} FoldMatches(log: seq<LogRow>, company: string, runId: string, n: nat)
    requires Chain(log, company, runId) && 0 < n <= |log|
    ensures Fold(BareInitial(1), log[..n]).Ok?
    ensures SnapshotsEqualButPayload(Fold(BareInitial(1), log[..n]).value, log[n - 1].snapshotAfter)
    ensures Fold(BareInitial(1), log[..n]).value.payload == if log[n - 1].event.SyncSucceeded? then log[n - 1].event.payload else Absent
  {
    var last := log[n - 1];
    assert log[..n] == log[..n - 1] + [last];
    FoldSnoc(BareInitial(1), log[..n - 1], last);
    ChainAt(log, company, runId, n - 1);
    if n > 1 {
      FoldMatches(log, company, runId, n - 1);
      ChainShape(log, company, runId, n - 2);
      TransitionRespects(Fold(BareInitial(1), log[..n - 1]).value, Reloaded(log[n - 2].snapshotAfter), last.event);
    } else {
      assert log[..0] == [];
      TransitionRespects(BareInitial(1), Before(log, 0), last.event);
    }
  }

  /** Entry by entry, the persisted snapshot equals the fold exactly for the first entry and for a
      success; every other entry carries the column default where the fold has nothing. */
  lemma FoldEqualsPersisted(log: seq<LogRow>, company: string, runId: string, n: nat)
    requires Chain(log, company, runId) && 0 < n <= |log|
    ensures Fold(BareInitial(1), log[..n]).Ok?
    ensures SnapshotsEqual(Fold(BareInitial(1), log[..n]).value, log[n - 1].snapshotAfter)
      <==> n == 1 || log[n - 1].event.SyncSucceeded?
  {
    FoldMatches(log, company, runId, n);
    ChainShape(log, company, runId, n - 1);
    ChainAt(log, company, runId, n - 1);
    if log[n - 1].event.SyncSucceeded? {
      JsonReflexive(JObject(log[n - 1].event.payload.value));
    }
  }

  // ---------- replay ----------

  /** The replay of a loaded prefix is ok exactly when no entry of it is a failed sync; otherwise it
      stops with a snapshot divergence at version 2. */
  lemma ReplayVerdict(log: seq<LogRow>, company: string, runId: string)
    requires Chain(log, company, runId) && log != []
    ensures ReplayBracket(log).Some?
    ensures ReplayBracket(log).value.ok <==> forall i :: 0 <= i < |log| ==> !log[i].event.SyncFailed?
    ensures !ReplayBracket(log).value.ok ==>
      |log| > 1 && ReplayBracket(log).value == ReplayResult(false, None, [Issue(2, log[1].event, SnapshotDivergence)])
    ensures ReplayBracket(log).value.ok ==>
      |log| <= 2 && Fold(BareInitial(1), log).Ok?
      && ReplayBracket(log).value == ReplayResult(true, Some(Fold(BareInitial(1), log).value), [])
  {
    ChainAt(log, company, runId, 0);
    ChainShape(log, company, runId, 0);
    FoldEqualsPersisted(log, company, runId, 1);
    var first := Transition(BareInitial(1), log[0].event);
    assert log[..1] == [log[0]] && [log[0]][1..] == [];
    assert Fold(BareInitial(1), [log[0]]) == first;
    assert ReplayBracket(log).value == ReplayFrom(first.value, 2, log[1..]);
    if |log| > 1 {
      ChainAt(log, company, runId, 1);
      ChainShape(log, company, runId, 1);
      FoldEqualsPersisted(log, company, runId, 2);
      assert log[..2] == [log[0]] + [log[1]];
      FoldSnoc(BareInitial(1), [log[0]], log[1]);
      var second := Transition(first.value, log[1].event);
      assert Fold(BareInitial(1), log[..2]) == second;
      assert log[1..][0] == log[1];
      if log[1].event.SyncSucceeded? {
        assert log == log[..2] && log[1..][1..] == [];
        assert ReplayFrom(second.value, 3, []) == ReplayResult(true, Some(second.value), []);
      } else {
        assert log[1].event.SyncFailed?;
        assert ReplayFrom(first.value, 2, log[1..]) == Diverged(log[1], SnapshotDivergence);
      }
    } else {
      assert log == [log[0]] && log[1..] == [];
    }
  }

  /** In every reachable store, the bracket of a run replays cleanly exactly when the run has never
      failed, which its `failed_at` column says. */
  lemma ReachableReplay(ops: seq<Op>, runId: string)
    requires runId in RunOps(EMPTY, ops).0.rows
    ensures var store := RunOps(EMPTY, ops).0;
      var row := store.rows[runId];
      var view := ViewOf(Bracket(store, row.company, runId));
      view.Available? && view.entriesReplayed > 0
      && (view.ok <==> row.failedAt.None?)
      && (view.firstDivergence.None? <==> view.ok)
      && (!view.ok ==> view.firstDivergence.value.stateVersion == 2 && view.firstDivergence.value.reason == SnapshotDivergence)
  {
    EmptyInv();
    ReachableInv(EMPTY, ops);
    var store := RunOps(EMPTY, ops).0;
    assert RunHolds(store, runId);
    var company, log := store.rows[runId].company, LogOf(store.log, runId);
    BracketIsLog(store, runId);
    var loaded := Bracket(store, company, runId);
    ChainPrefix(log, company, runId, |loaded|);
    assert loaded == log[..|loaded|];
    ReplayVerdict(loaded, company, runId);
    FailedAtTells(store, runId);
    if |log| > 1 {
      FailureComesSecond(log, company, runId);
    }
  }

  /** One failed sync is enough: its run, started and completed as the code does it, does not replay. */
  lemma FailedRunDiverges(start: Op, fail: Op)
    requires start.Start? && fail.Fail? && fail.runId == start.newId && fail.company == start.company
    ensures var store := RunOps(EMPTY, [start, fail]).0;
      start.newId in store.rows && ViewOf(Bracket(store, start.company, start.newId)) != Unavailable
      && !ViewOf(Bracket(store, start.company, start.newId)).ok
  {
    var ops := [start, fail];
    assert ops[1..] == [fail] && ops[1..][1..] == [];
    EmptyInv();
    StartEffect(EMPTY, start);
    var started := Step(EMPTY, start).0;
    var row := started.rows[start.newId];
    var next := Transition(RowToSnapshot(row), CompletionEvent(fail));
    assert next.Ok?;
    StepKeepsInv(EMPTY, start);
    CompleteKeepsInv(started, fail);
    var store := Step(started, fail).0;
    assert RunOps(store, []).0 == store;
    assert RunOps(started, [fail]).0 == store by { assert [fail][1..] == []; }
    assert store == RunOps(EMPTY, ops).0;
    ReachableReplay(ops, start.newId);
  }

  lemma FailureComesSecond(log: seq<LogRow>, company: string, runId: string)
    requires Chain(log, company, runId) && |log| > 1
    ensures (exists i :: 0 <= i < |log| && log[i].event.SyncFailed?) <==> log[1].event.SyncFailed?
  {
    ChainAt(log, company, runId, 0);
    ChainAt(log, company, runId, 1);
    ChainShape(log, company, runId, 1);
  }

  lemma {:induction false} FailedAtInLog(log: seq<LogRow>, company: string, runId: string, n: nat)
    requires Chain(log, company, runId) && 0 < n <= |log|
    ensures log[n - 1].snapshotAfter.failedAt.Val? <==> exists i :: 0 <= i < n && log[i].event.SyncFailed?
  {
    ChainAt(log, company, runId, n - 1);
    if n > 1 {
      FailedAtInLog(log, company, runId, n - 1);
    }
  }

  lemma FailedAtTells(store: Store, runId: string)
    requires Inv(store) && runId in store.rows
    ensures var log := LogOf(store.log, runId);
      store.rows[runId].failedAt.Some? <==> exists i :: 0 <= i < |log| && log[i].event.SyncFailed?
  {
    assert RunHolds(store, runId);
    var log := LogOf(store.log, runId);
    FailedAtInLog(log, store.rows[runId].company, runId, |log|);
    assert RowToSnapshot(store.rows[runId]).failedAt == log[|log| - 1].snapshotAfter.failedAt;
  }

  // ---------- the operations script ----------

  datatype Column = StateColumn | VersionColumn | StartedAt | SucceededAt | FailedAt | RetriedAt | ErrorColumn

  const COMPARED := [StateColumn, VersionColumn, StartedAt, SucceededAt, FailedAt, RetriedAt, ErrorColumn]

  datatype Cell = StateCell(state: RunState) | VersionCell(version: int) | TextCell(text: Field<string>)

  function CellOf(s: Snapshot, column: Column): Cell {
    match column
    case StateColumn => StateCell(s.state)
    case VersionColumn => VersionCell(s.stateVersion)
    case StartedAt => TextCell(s.startedAt)
    case SucceededAt => TextCell(s.succeededAt)
    case FailedAt => TextCell(s.failedAt)
    case RetriedAt => TextCell(s.retriedAt)
    case ErrorColumn => TextCell(s.error)
  }

  /** `shallowEqual`: null and missing are the same, everything else is compared by value. */
  predicate ShallowEqual(a: Cell, b: Cell) {
    a == b || (a.TextCell? && b.TextCell? && SameText(a.text, b.text))
  }

  datatype Verdict =
    | NoEvents
    | ReplayDiverged(issues: seq<Issue>)
    | NoLiveRow
    | LiveDisagrees(columns: seq<Column>)
    | Matches

  /** Whether a compared column of the live row disagrees with the replay. */
  function Differs(final: Snapshot, live: Row): Column -> bool {
    (column: Column) => !ShallowEqual(CellOf(final, column), CellOf(RowToSnapshot(live), column))
  }

  function Divergences(final: Snapshot, live: Row, columns: seq<Column>): seq<Column> {
    Filter(columns, Differs(final, live))
  }

  function OfRunInWorkflow(runId: string): LogRow -> bool {
    (row: LogRow) => row.workflowName == WORKFLOW_NAME && row.entityId == runId
  }

  function ScriptVerdict(store: Store, runId: string): Verdict {
    var log := SortBy(Filter(store.log, OfRunInWorkflow(runId)), Version());
    if log == [] then NoEvents
    else
      var result := Replayed(BareInitial(log[0].stateVersion), log);
      if !result.ok then ReplayDiverged(result.issues)
      else if runId !in store.rows then NoLiveRow
      else if result.final.None? then ReplayDiverged([])
      else
        var columns := Divergences(result.final.value, store.rows[runId], COMPARED);
        if columns == [] then Matches else LiveDisagrees(columns)
  }

  method Collect(columns: seq<Column>, differs: Column -> bool) returns (divergences: seq<Column>)
    ensures divergences == Filter(columns, differs)
  {
    divergences := [];
    for i := 0 to |columns|
      invariant divergences == Filter(columns[..i], differs)
    {
      assert columns[..i + 1] == columns[..i] + [columns[i]];
      FilterAppends(columns[..i], [columns[i]], differs);
      assert Filter([columns[i]], differs) == if differs(columns[i]) then [columns[i]] else [];
      if differs(columns[i]) {
        divergences := divergences + [columns[i]];
      }
    }
    assert columns[..|columns|] == columns;
  }

  /** The script's comparison of the replayed snapshot with the live row: it finds nothing exactly
      when every compared column agrees, null and missing counting as the same. */
  method CompareLive(final: Snapshot, live: Row) returns (divergences: seq<Column>)
    ensures divergences == Divergences(final, live, COMPARED)
    ensures divergences == [] <==> forall c :: c in COMPARED ==> ShallowEqual(CellOf(final, c), CellOf(RowToSnapshot(live), c))
  {
    divergences := Collect(COMPARED, Differs(final, live));
    DivergencesTell(final, live, COMPARED);
  }

  lemma DivergencesTell(final: Snapshot, live: Row, columns: seq<Column>)
    ensures Divergences(final, live, columns) == []
      <==> forall c :: c in columns ==> ShallowEqual(CellOf(final, c), CellOf(RowToSnapshot(live), c))
  {
    FilterMembers(columns, Differs(final, live));
    if Divergences(final, live, columns) != [] {
      assert Divergences(final, live, columns)[0] in Divergences(final, live, columns);
    }
  }

  lemma NoDivergence(final: Snapshot, live: Row, columns: seq<Column>)
    requires SnapshotsEqualButPayload(final, RowToSnapshot(live))
    ensures Divergences(final, live, columns) == []
  {
    DivergencesTell(final, live, columns);
  }

  /** The live row never disagrees with the fold of its log, whether or not the run ever failed. */
  lemma LiveMatchesFold(store: Store, runId: string)
    requires Inv(store) && runId in store.rows
    ensures var log := LogOf(store.log, runId);
      Fold(BareInitial(1), log).Ok? && Divergences(Fold(BareInitial(1), log).value, store.rows[runId], COMPARED) == []
  {
    assert RunHolds(store, runId);
    var log := LogOf(store.log, runId);
    FoldMatches(log, store.rows[runId].company, runId, |log|);
    assert log[..|log|] == log;
    NoDivergence(Fold(BareInitial(1), log).value, store.rows[runId], COMPARED);
  }

  lemma {:induction false} SameFilter(log: seq<LogRow>, company: string, runId: string)
    requires forall i :: 0 <= i < |log| && log[i].entityId == runId ==> log[i].company == company && log[i].entityType == "qbo_sync_run"
    ensures Filter(log, OfRunInWorkflow(runId)) == Filter(log, OfEntity(company, runId))
  {
    if log != [] {
      SameFilter(log[1..], company, runId);
    }
  }

  /** The script finds a match for exactly the reachable runs that never failed; a failed run is
      reported as a replay divergence at version 2, never as a disagreement with the live row. */
  lemma ScriptOutcome(ops: seq<Op>, runId: string)
    requires runId in RunOps(EMPTY, ops).0.rows
    ensures var store := RunOps(EMPTY, ops).0;
      ScriptVerdict(store, runId) == Matches <==> store.rows[runId].failedAt.None?
    ensures var store := RunOps(EMPTY, ops).0;
      store.rows[runId].failedAt.Some? ==>
        exists event :: ScriptVerdict(store, runId) == ReplayDiverged([Issue(2, event, SnapshotDivergence)])
  {
    EmptyInv();
    ReachableInv(EMPTY, ops);
    var store := RunOps(EMPTY, ops).0;
    assert RunHolds(store, runId);
    var company, log := store.rows[runId].company, LogOf(store.log, runId);
    BracketIsLog(store, runId);
    forall i | 0 <= i < |store.log| && store.log[i].entityId == runId
      ensures store.log[i].company == company && store.log[i].entityType == "qbo_sync_run"
    {
      LogOfComplete(store.log, runId, i);
      var j :| 0 <= j < |log| && log[j] == store.log[i];
      ChainAt(log, company, runId, j);
    }
    SameFilter(store.log, company, runId);
    forall i, j | 0 <= i < j < |log| ensures log[i].stateVersion <= log[j].stateVersion {
      ChainAt(log, company, runId, i);
      ChainAt(log, company, runId, j);
    }
    SortIdentity(log, Version());
    ReplayVerdict(log, company, runId);
    FailedAtTells(store, runId);
    LiveMatchesFold(store, runId);
    ChainAt(log, company, runId, 0);
  }
}
