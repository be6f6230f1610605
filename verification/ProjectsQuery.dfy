/** The project list (apps/api/src/projects-query.ts): the request's filters, the numbered clauses
    built for them, and what the built query selects. */
module ProjectsQuery {
  import opened Basics

  /** A project row joined with its customer's name, if the customer exists in the same company. */
  datatype Row = Row(
    id: string, companyId: string, customerId: Option<string>, name: string, customerName: string, joinedName: Option<string>,
    status: string, updatedAt: int)

  datatype Query = Query(q: Option<string>, status: Option<string>, customerId: Option<string>, cursor: Option<string>, limit: int)

  /** The parameters as received; `number` reads a text as a finite number. */
  datatype Params = Params(q: Option<string>, status: Option<string>, customerId: Option<string>, cursor: Option<string>,
      limit: Option<string>)

  /** What the database decides: letters that ILIKE takes as equal, and the casts of a text to a uuid
      and to a time in microseconds. `None` is a cast that fails, and the query with it. */
  datatype Sql = Sql(same: (char, char) -> bool, uuid: string -> Option<string>, time: string -> Option<int>)

  const DEFAULT_PROJECTS_LIMIT := 100
  const MAX_PROJECTS_LIMIT := 100

  // ---------- parsing ----------

  function Present(param: Option<string>): Option<string> {
    var text := Trim(param.GetOr(""));
    if text == "" then None else Some(text)
  }

  function Clamp(n: int): int {
    if n > MAX_PROJECTS_LIMIT then MAX_PROJECTS_LIMIT else if n < 1 then 1 else n
  }

  function ParseProjectsQuery(params: Params, number: string -> Option<real>): (query: Query)
    ensures 1 <= query.limit <= 100
    ensures params.limit.Some? && number(params.limit.value).Some? ==>
      var n := number(params.limit.value).value; 1.0 <= n <= 100.0 ==> query.limit == n.Floor
    ensures query.q != Some("") && query.status != Some("") && query.customerId != Some("") && query.cursor != Some("")
  {
    var limit :=
      if params.limit.None? then DEFAULT_PROJECTS_LIMIT
      else
        var raw := number(params.limit.value);
        if raw.None? then DEFAULT_PROJECTS_LIMIT else Clamp(raw.value.Floor);
    Query(Present(params.q), Present(params.status), Present(params.customerId), Present(params.cursor), limit)
  }

  // ---------- ILIKE ----------

  predicate Like(pattern: string, text: string, same: (char, char) -> bool)
    decreases |pattern| + |text|
  {
    if pattern == [] then text == []
    else if pattern[0] == '%' then Like(pattern[1..], text, same) || (text != [] && Like(pattern, text[1..], same))
    else if text == [] then false
    else if pattern[0] == '_' then Like(pattern[1..], text[1..], same)
    else if pattern[0] == '\\' then |pattern| > 1 && same(pattern[1], text[0]) && Like(pattern[2..], text[1..], same)
    else same(pattern[0], text[0]) && Like(pattern[1..], text[1..], same)
  }

  function Anywhere(q: string): string {
    "%" + q + "%"
  }

  predicate Plain(q: string) {
    forall i :: 0 <= i < |q| ==> q[i] != '%' && q[i] != '_' && q[i] != '\\'
  }

  predicate OccursAt(q: string, text: string, i: int, same: (char, char) -> bool) {
    0 <= i <= |text| - |q| && forall k :: 0 <= k < |q| ==> same(q[k], text[i + k])
  }

  lemma {:induction false} PercentTakesAll(text: string, same: (char, char) -> bool)
    ensures Like("%", text, same)
  {
    if text == [] {
      assert Like([], text, same);
    } else {
      PercentTakesAll(text[1..], same);
    }
  }

  lemma {:induction false} PlainPrefix(q: string, text: string, same: (char, char) -> bool)
    requires Plain(q)
    ensures Like(q + "%", text, same) <==> OccursAt(q, text, 0, same)
  {
    if q == [] {
      assert q + "%" == "%";
      PercentTakesAll(text, same);
    } else {
      assert (q + "%")[0] == q[0] && (q + "%")[1..] == q[1..] + "%";
      if text != [] {
        PlainPrefix(q[1..], text[1..], same);
        OccursHead(q, text, same);
      }
    }
  }

  lemma OccursHead(q: string, text: string, same: (char, char) -> bool)
    requires q != [] && text != []
    ensures OccursAt(q, text, 0, same) <==> same(q[0], text[0]) && OccursAt(q[1..], text[1..], 0, same)
  {
    if same(q[0], text[0]) && OccursAt(q[1..], text[1..], 0, same) {
      forall k | 0 <= k < |q| ensures same(q[k], text[0 + k]) {
        if k > 0 {
          assert same(q[1..][k - 1], text[1..][0 + (k - 1)]);
        }
      }
    }
    if OccursAt(q, text, 0, same) {
      assert same(q[0], text[0 + 0]);
      forall k | 0 <= k < |q| - 1 ensures same(q[1..][k], text[1..][0 + k]) {
        assert same(q[k + 1], text[0 + (k + 1)]);
      }
    }
  }

  lemma OccursTail(q: string, text: string, i: nat, same: (char, char) -> bool)
    requires text != []
    ensures OccursAt(q, text[1..], i, same) <==> OccursAt(q, text, i + 1, same)
  {
    if i <= |text| - 1 - |q| {
      forall k | 0 <= k < |q| ensures same(q[k], text[1..][i + k]) == same(q[k], text[i + 1 + k]) {
      }
    }
  }

  /** Without `%`, `_` and `\`, the search finds exactly the texts that contain it. */
  lemma {:induction false} SearchIsContainment(q: string, text: string, same: (char, char) -> bool)
    requires Plain(q)
    ensures Like(Anywhere(q), text, same) <==> exists i :: OccursAt(q, text, i, same)
    decreases |text|
  {
    assert Anywhere(q)[1..] == q + "%";
    PlainPrefix(q, text, same);
    if text != [] {
      SearchIsContainment(q, text[1..], same);
      forall i | OccursAt(q, text, i, same) && i > 0 ensures OccursAt(q, text[1..], i - 1, same) {
        OccursTail(q, text, i - 1, same);
      }
      forall i | OccursAt(q, text[1..], i, same) ensures OccursAt(q, text, i + 1, same) {
        OccursTail(q, text, i, same);
      }
    } else {
      assert forall i :: OccursAt(q, text, i, same) ==> i == 0;
    }
  }

  /** A text that the search finds whatever else it finds: every wildcard stands for as little as it
      can, and an escape for the letter after it.  A `\` at the end escapes the closing `%`. */
  function Instance(q: string): (text: string)
    ensures |text| <= |q|
  {
    if q == [] then []
    else if q[0] == '%' then Instance(q[1..])
    else if q[0] == '_' then ['x'] + Instance(q[1..])
    else if q[0] == '\\' then if |q| == 1 then ['%'] else [q[1]] + Instance(q[2..])
    else [q[0]] + Instance(q[1..])
  }

  /** Letters count as equal to themselves; the letters told apart here are told apart. */
  ghost predicate TellsApart(same: (char, char) -> bool) {
    (forall c :: same(c, c)) && !same('_', 'x') && !same('\\', '%')
  }

  lemma {:induction false} InstanceIsFound(q: string, same: (char, char) -> bool)
    requires TellsApart(same)
    ensures Like(q + "%", Instance(q), same)
    decreases |q|
  {
    if q == [] {
      assert q + "%" == "%";
      PercentTakesAll([], same);
    } else if q[0] == '\\' {
      if |q| == 1 {
        assert (q + "%")[2..] == [] && ['%'][1..] == [];
      } else {
        assert (q + "%")[2..] == q[2..] + "%" && Instance(q)[1..] == Instance(q[2..]);
        InstanceIsFound(q[2..], same);
      }
    } else {
      assert (q + "%")[1..] == q[1..] + "%";
      InstanceIsFound(q[1..], same);
      if q[0] != '%' {
        assert Instance(q)[1..] == Instance(q[1..]);
      }
    }
  }

  /** Only a plain search occurs in its own instance. */
  lemma {:induction false} InstanceDiffers(q: string, same: (char, char) -> bool)
    requires TellsApart(same) && !Plain(q)
    ensures !OccursAt(q, Instance(q), 0, same)
  {
    if q[0] == '_' {
      assert !same(q[0], Instance(q)[0 + 0]);
    } else if q == "\\" {
      assert !same(q[0], Instance(q)[0 + 0]);
    } else if q[0] != '%' && q[0] != '\\' {
      assert Instance(q)[1..] == Instance(q[1..]);
      if Plain(q[1..]) {
        assert forall i :: 0 < i < |q| ==> q[i] == q[1..][i - 1];
        assert false;
      }
      InstanceDiffers(q[1..], same);
      OccursHead(q, Instance(q), same);
    }
  }

  /** The search finds exactly the texts that contain it. */
  ghost predicate FindsByContainment(q: string, text: string, same: (char, char) -> bool) {
    Like(Anywhere(q), text, same) <==> exists i :: OccursAt(q, text, i, same)
  }

  /** The search is not escaped: it is containment on every text exactly when it holds no `%`, no `_`
      and no `\`. */
  lemma PlainIffContainment(q: string, same: (char, char) -> bool)
    requires TellsApart(same)
    ensures Plain(q) <==> forall text :: FindsByContainment(q, text, same)
  {
    if Plain(q) {
      forall text ensures FindsByContainment(q, text, same) {
        SearchIsContainment(q, text, same);
      }
    } else {
      InstanceIsFound(q, same);
      InstanceDiffers(q, same);
      assert Anywhere(q)[1..] == q + "%";
      assert forall i :: OccursAt(q, Instance(q), i, same) ==> i == 0;
      assert !FindsByContainment(q, Instance(q), same);
    }
  }

  /** The search is not escaped: `_` finds every text but the empty one. */
  lemma {:induction false} UnderscoreFindsAll(text: string, same: (char, char) -> bool)
    ensures Like(Anywhere("_"), text, same) <==> text != ""
  {
    assert Anywhere("_") == "%_%" && "%_%"[1..] == "_%" && "_%"[1..] == "%";
    if text != [] {
      PercentTakesAll(text[1..], same);
    }
  }

  // ---------- the built query ----------

  datatype Value = Text(s: string) | Number(n: int)

  /** A clause of the `where`, with the placeholder number it refers to. */
  datatype Clause = CompanyIs(at: nat) | Mentions(at: nat) | StatusIs(at: nat) | CustomerIs(at: nat) | UpdatedBefore(at: nat)

  datatype Built = Built(clauses: seq<Clause>, limitAt: nat, values: seq<Value>, limit: int)

  /** Placeholder `$at`, counted from 1; a placeholder without a text binds the empty text. */
  function Bound(values: seq<Value>, at: nat): string {
    if 1 <= at <= |values| && values[at - 1].Text? then values[at - 1].s else ""
  }

  predicate Castable(clause: Clause, values: seq<Value>, sql: Sql) {
    match clause
    case CompanyIs(at) => sql.uuid(Bound(values, at)).Some?
    case CustomerIs(at) => sql.uuid(Bound(values, at)).Some?
    case UpdatedBefore(at) => sql.time(Bound(values, at)).Some?
    case _ => true
  }

  predicate Holds(clause: Clause, values: seq<Value>, row: Row, sql: Sql) {
    match clause
    case CompanyIs(at) => sql.uuid(Bound(values, at)) == Some(row.companyId)
    case Mentions(at) => Found(Bound(values, at), row, sql)
    case StatusIs(at) => row.status == Bound(values, at)
    case CustomerIs(at) => row.customerId.Some? && sql.uuid(Bound(values, at)) == row.customerId
    case UpdatedBefore(at) => var time := sql.time(Bound(values, at)); time.Some? && row.updatedAt < time.value
  }

  predicate Found(pattern: string, row: Row, sql: Sql) {
    Like(pattern, row.name, sql.same) || Like(pattern, row.customerName, sql.same) || Like(pattern, row.joinedName.GetOr(""), sql.same)
  }

  /** Every placeholder is bound, each by a clause of its own and the last one by the limit. */
  predicate WellNumbered(built: Built) {
    && |built.clauses| + 1 == |built.values|
    && (forall i :: 0 <= i < |built.clauses| ==> built.clauses[i].at == i + 1 && built.values[i].Text?)
    && built.limitAt == |built.values|
    && built.values[|built.values| - 1] == Number(built.limit)
  }

  predicate Accepts(built: Built, sql: Sql) {
    forall i :: 0 <= i < |built.clauses| ==> Castable(built.clauses[i], built.values, sql)
  }

  predicate Selects(built: Built, row: Row, sql: Sql) {
    forall i :: 0 <= i < |built.clauses| ==> Holds(built.clauses[i], built.values, row, sql)
  }

  // ---------- the filters it stands for ----------

  predicate ValidQuery(companyId: string, query: Query, sql: Sql) {
    && sql.uuid(companyId).Some?
    && (query.customerId.Some? ==> sql.uuid(query.customerId.value).Some?)
    && (query.cursor.Some? ==> sql.time(query.cursor.value).Some?)
  }

  predicate Filters(companyId: string, query: Query, row: Row, sql: Sql) {
    && sql.uuid(companyId) == Some(row.companyId)
    && (query.q.Some? ==> Found(Anywhere(query.q.value), row, sql))
    && (query.status.Some? ==> row.status == query.status.value)
    && (query.customerId.Some? ==> row.customerId.Some? && sql.uuid(query.customerId.value) == row.customerId)
  }

  predicate Wanted(companyId: string, query: Query, row: Row, sql: Sql) {
    Filters(companyId, query, row, sql)
    && (query.cursor.Some? ==> var time := sql.time(query.cursor.value); time.Some? && row.updatedAt < time.value)
  }

  /** What every prefix of the build keeps: clause i refers to placeholder i + 1. */
  predicate Numbered(clauses: seq<Clause>, values: seq<Value>) {
    |clauses| == |values| && forall i :: 0 <= i < |clauses| ==> clauses[i].at == i + 1 && values[i].Text?
  }

  predicate SelectsBy(clauses: seq<Clause>, values: seq<Value>, row: Row, sql: Sql) {
    forall i :: 0 <= i < |clauses| ==> Holds(clauses[i], values, row, sql)
  }

  predicate AcceptsBy(clauses: seq<Clause>, values: seq<Value>, sql: Sql) {
    forall i :: 0 <= i < |clauses| ==> Castable(clauses[i], values, sql)
  }

  /** A further value does not disturb the clauses before it. */
  lemma PushKeeps(clauses: seq<Clause>, values: seq<Value>, value: Value, row: Row, sql: Sql)
    requires Numbered(clauses, values)
    ensures SelectsBy(clauses, values + [value], row, sql) <==> SelectsBy(clauses, values, row, sql)
    ensures AcceptsBy(clauses, values + [value], sql) <==> AcceptsBy(clauses, values, sql)
  {
    forall i | 0 <= i < |clauses| ensures Bound(values + [value], clauses[i].at) == Bound(values, clauses[i].at) {
    }
    forall i | 0 <= i < |clauses|
      ensures Holds(clauses[i], values + [value], row, sql) == Holds(clauses[i], values, row, sql)
      ensures Castable(clauses[i], values + [value], sql) == Castable(clauses[i], values, sql)
    {
    }
  }

  lemma PushClause(clauses: seq<Clause>, values: seq<Value>, clause: Clause, text: string, row: Row, sql: Sql)
    requires Numbered(clauses, values) && clause.at == |values| + 1
    ensures Numbered(clauses + [clause], values + [Text(text)])
    ensures SelectsBy(clauses + [clause], values + [Text(text)], row, sql)
      <==> SelectsBy(clauses, values, row, sql) && Holds(clause, values + [Text(text)], row, sql)
    ensures AcceptsBy(clauses + [clause], values + [Text(text)], sql)
      <==> AcceptsBy(clauses, values, sql) && Castable(clause, values + [Text(text)], sql)
  {
    PushKeeps(clauses, values, Text(text), row, sql);
    var longer, all := clauses + [clause], values + [Text(text)];
    assert longer[|clauses|] == clause && all[|values|] == Text(text);
    assert forall i :: 0 <= i < |clauses| ==> longer[i] == clauses[i] && all[i] == values[i];
  }

  /** The database and row under which a build is judged; any will do. */
  datatype Witness = Witness(row: Row, sql: Sql)

  /** The clauses so far accept and select as the filters of `query` do. */
  ghost predicate Means(clauses: seq<Clause>, values: seq<Value>, companyId: string, query: Query) {
    && Numbered(clauses, values)
    && (forall w: Witness :: AcceptsBy(clauses, values, w.sql) <==> ValidQuery(companyId, query, w.sql))
    && (forall w: Witness :: SelectsBy(clauses, values, w.row, w.sql) <==> Wanted(companyId, query, w.row, w.sql))
  }

  /** `more` is `query` with the filter that the clause and its text express. */
  predicate StandsFor(clause: Clause, text: string, query: Query, more: Query) {
    match clause
    case Mentions(_) => query.q.None? && more.q.Some? && more == query.(q := more.q) && text == Anywhere(more.q.value)
    case StatusIs(_) => query.status.None? && more == query.(status := Some(text))
    case CustomerIs(_) => query.customerId.None? && more == query.(customerId := Some(text))
    case UpdatedBefore(_) => query.cursor.None? && more == query.(cursor := Some(text))
    case CompanyIs(_) => false
  }

  /** One more clause, and the filter it stands for. */
  lemma PushMeans(clauses: seq<Clause>, values: seq<Value>, clause: Clause, text: string, companyId: string, query: Query, more: Query)
    requires Means(clauses, values, companyId, query) && clause.at == |values| + 1
    requires StandsFor(clause, text, query, more)
    ensures Means(clauses + [clause], values + [Text(text)], companyId, more)
  {
    var longer, all := clauses + [clause], values + [Text(text)];
    assert Bound(all, clause.at) == text;
    forall w: Witness
      ensures Numbered(longer, all)
      ensures AcceptsBy(longer, all, w.sql) <==> ValidQuery(companyId, more, w.sql)
      ensures SelectsBy(longer, all, w.row, w.sql) <==> Wanted(companyId, more, w.row, w.sql)
    {
      PushClause(clauses, values, clause, text, w.row, w.sql);
      assert AcceptsBy(clauses, values, w.sql) <==> ValidQuery(companyId, query, w.sql);
      assert SelectsBy(clauses, values, w.row, w.sql) <==> Wanted(companyId, query, w.row, w.sql);
    }
  }

  lemma CompanyMeans(companyId: string, limit: int)
    ensures Means([CompanyIs(1)], [Text(companyId)], companyId, Query(None, None, None, None, limit))
  {
    forall w: Witness
      ensures AcceptsBy([CompanyIs(1)], [Text(companyId)], w.sql) <==> w.sql.uuid(companyId).Some?
      ensures SelectsBy([CompanyIs(1)], [Text(companyId)], w.row, w.sql) <==> w.sql.uuid(companyId) == Some(w.row.companyId)
    {
      PushClause([], [], CompanyIs(1), companyId, w.row, w.sql);
      assert [] + [CompanyIs(1)] == [CompanyIs(1)] && [] + [Text(companyId)] == [Text(companyId)];
    }
  }

  /** One push onto the values and one onto the clauses. */
  method Push(
      clauses: seq<Clause>, values: seq<Value>, clause: Clause, text: string, ghost companyId: string, ghost query: Query,
          ghost more: Query)
      returns (longer: seq<Clause>, all: seq<Value>)
    requires Means(clauses, values, companyId, query) && clause.at == |values| + 1
    requires StandsFor(clause, text, query, more)
    ensures longer == clauses + [clause] && all == values + [Text(text)]
    ensures Means(longer, all, companyId, more)
  {
    PushMeans(clauses, values, clause, text, companyId, query, more);
    all := values + [Text(text)];
    longer := clauses + [clause];
  }

  method BuildListProjectsQuery(companyId: string, query: Query) returns (built: Built)
    ensures WellNumbered(built) && built.limit == query.limit
    ensures forall w: Witness :: Accepts(built, w.sql) <==> ValidQuery(companyId, query, w.sql)
    ensures forall w: Witness :: Selects(built, w.row, w.sql) <==> Wanted(companyId, query, w.row, w.sql)
  {
    var values, clauses := [Text(companyId)], [CompanyIs(1)];
    ghost var q0 := Query(None, None, None, None, query.limit);
    CompanyMeans(companyId, query.limit);
    ghost var q1 := q0.(q := query.q);
    if query.q.Some? {
      clauses, values := Push(clauses, values, Mentions(|values| + 1), Anywhere(query.q.value), companyId, q0, q1);
    }
    assert Means(clauses, values, companyId, q1);
    ghost var q2 := q1.(status := query.status);
    if query.status.Some? {
      clauses, values := Push(clauses, values, StatusIs(|values| + 1), query.status.value, companyId, q1, q2);
    }
    assert Means(clauses, values, companyId, q2);
    ghost var q3 := q2.(customerId := query.customerId);
    if query.customerId.Some? {
      clauses, values := Push(clauses, values, CustomerIs(|values| + 1), query.customerId.value, companyId, q2, q3);
    }
    assert Means(clauses, values, companyId, q3);
    if query.cursor.Some? {
      clauses, values := Push(clauses, values, UpdatedBefore(|values| + 1), query.cursor.value, companyId, q3, query);
    }
    built := Limited(clauses, values, query.limit);
    LimitedMeans(clauses, values, companyId, query);
  }

  function Limited(clauses: seq<Clause>, values: seq<Value>, limit: int): Built {
    Built(clauses, |values| + 1, values + [Number(limit)], limit)
  }

  lemma LimitedMeans(clauses: seq<Clause>, values: seq<Value>, companyId: string, query: Query)
    requires Means(clauses, values, companyId, query)
    ensures var built := Limited(clauses, values, query.limit);
      && WellNumbered(built)
      && (forall w: Witness :: Accepts(built, w.sql) <==> ValidQuery(companyId, query, w.sql))
      && (forall w: Witness :: Selects(built, w.row, w.sql) <==> Wanted(companyId, query, w.row, w.sql))
  {
    var built := Limited(clauses, values, query.limit);
    forall w: Witness
      ensures Accepts(built, w.sql) <==> ValidQuery(companyId, query, w.sql)
      ensures Selects(built, w.row, w.sql) <==> Wanted(companyId, query, w.row, w.sql)
    {
      PushKeeps(clauses, values, Number(query.limit), w.row, w.sql);
      assert AcceptsBy(clauses, values, w.sql) <==> ValidQuery(companyId, query, w.sql);
      assert SelectsBy(clauses, values, w.row, w.sql) <==> Wanted(companyId, query, w.row, w.sql);
    }
  }
}
