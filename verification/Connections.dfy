/** The connection upsert of apps/api/src/qbo-integration-connection.ts: a read, and later an insert
    or an update that carries the version guard itself. */
module Connections {
  import opened Basics

  /** The columns an upsert may set. */
  datatype Values = Values(
    account: Option<string>, accessToken: Option<string>, refreshToken: Option<string>, webhookSecret: Option<string>,
    syncCursor: Option<string>, status: Option<string>)

  datatype Row = Row(id: nat, company: string, provider: string, createdAt: int, values: Values, lastSyncedAt: Option<int>, version: int)

  /** Rows in the order of their creation. */
  type Table = seq<Row>

  datatype Outcome =
    | Looked                 // the read step
    | Inserted(id: nat)
    | Updated(id: nat)
    | Refused                // the guarded update matched no row: null
    | Untouched              // an unguarded update matched no row: the row that was read

  function Coalesce(a: Option<string>, b: Option<string>): Option<string> {
    if a.Some? then a else b
  }

  function Merged(new_: Values, old_: Values): Values {
    Values(Coalesce(new_.account, old_.account), Coalesce(new_.accessToken, old_.accessToken),
      Coalesce(new_.refreshToken, old_.refreshToken), Coalesce(new_.webhookSecret, old_.webhookSecret),
      Coalesce(new_.syncCursor, old_.syncCursor), Coalesce(new_.status, old_.status))
  }

  /** The newest row of (company, provider): `order by created_at desc limit 1`. */
  function Newest(table: Table, company: string, provider: string): Option<Row> {
    if table == [] then None
    else
      var last, earlier := table[|table| - 1], Newest(table[..|table| - 1], company, provider);
      if last.company == company && last.provider == provider && (earlier.None? || earlier.value.createdAt <= last.createdAt)
      then Some(last) else earlier
  }

  /** The row the update hits, if any. */
  function Find(table: Table, id: nat): Option<nat> {
    if table == [] then None
    else if table[|table| - 1].id == id then Some(|table| - 1)
    else Find(table[..|table| - 1], id)
  }

  /** A pending upsert: what it was called with and, once it has read, what it saw. */
  datatype Upsert = Upsert(company: string, provider: string, values: Values, expectedVersion: Option<int>)

  function NewRow(upsert: Upsert, id: nat, now: int): Row {
    Row(id, upsert.company, upsert.provider, now,
      upsert.values.(status := Some(upsert.values.status.GetOr("connected"))), None, 1)
  }

  function UpdatedRow(row: Row, upsert: Upsert, now: int): Row {
    row.(values := Merged(upsert.values, row.values), lastSyncedAt := Some(row.lastSyncedAt.GetOr(now)), version := row.version + 1)
  }

  predicate Matches(row: Row, upsert: Upsert) {
    row.company == upsert.company && row.provider == upsert.provider
    && (upsert.expectedVersion.None? || row.version == upsert.expectedVersion.value)
  }

  /** The write step after a read that saw the row `seen`. */
  function Write(table: Table, upsert: Upsert, seen: Option<nat>, newId: nat, now: int): (Table, Outcome) {
    if seen.None? then (table + [NewRow(upsert, newId, now)], Inserted(newId))
    else
      var at := Find(table, seen.value);
      if at.Some? && at.value < |table| && Matches(table[at.value], upsert)
      then (table[at.value := UpdatedRow(table[at.value], upsert, now)], Updated(seen.value))
      else (table, if upsert.expectedVersion.Some? then Refused else Untouched)
  }

  class ConnectionStore {
    var rows: Table

    constructor ()
      ensures rows == []
    {
      rows := [];
    }

    method GetIntegrationConnection(company: string, provider: string) returns (row: Option<Row>)
      ensures row == Newest(rows, company, provider)
    {
      row := None;
      for i := 0 to |rows|
        invariant row == Newest(rows[..i], company, provider)
      {
        assert rows[..i + 1][..i] == rows[..i];
        if rows[i].company == company && rows[i].provider == provider && (row.None? || row.value.createdAt <= rows[i].createdAt) {
          row := Some(rows[i]);
        }
      }
      assert rows[..|rows|] == rows;
    }

    /** The insert or guarded update that follows the read. */
    method InsertOrUpdate(upsert: Upsert, seen: Option<nat>, newId: nat, now: int) returns (outcome: Outcome)
      modifies this
      ensures (rows, outcome) == Write(old(rows), upsert, seen, newId, now)
    {
      if seen.None? {
        rows := rows + [NewRow(upsert, newId, now)];
        return Inserted(newId);
      }
      var at := Find(rows, seen.value);
      if at.Some? && at.value < |rows| && Matches(rows[at.value], upsert) {
        rows := rows[at.value := UpdatedRow(rows[at.value], upsert, now)];
        return Updated(seen.value);
      }
      outcome := if upsert.expectedVersion.Some? then Refused else Untouched;
    }

    /** The whole upsert with nothing in between. */
    method UpsertIntegrationConnection(upsert: Upsert, newId: nat, now: int) returns (outcome: Outcome)
      modifies this
      ensures var seen := Newest(old(rows), upsert.company, upsert.provider);
        (rows, outcome) == Write(old(rows), upsert, if seen.None? then None else Some(seen.value.id), newId, now)
    {
      var existing := GetIntegrationConnection(upsert.company, upsert.provider);
      outcome := InsertOrUpdate(upsert, if existing.None? then None else Some(existing.value.id), newId, now);
    }
  }
}
