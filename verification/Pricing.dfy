/** The pricing chain of apps/api/src/pricing.ts, as queries over tables.

    SQL leaves some choices open: which row a `limit 1` without an order takes, and which of several
    tied rows an order puts first.  The queries are therefore relations, `SingleAnswer` and
    `BatchAnswer`; the methods compute one admissible answer. */
module Pricing {
  import opened Basics

  // ---------- tables ----------

  datatype Source = ProjectSource | CustomerSource | CompanySource | QboSource | FallbackSource | LibrarySource

  /** A row of one of the three override tables; `owner` is the project or the customer. */
  datatype Override = Override(id: string, company: string, owner: string, code: string, rate: real, unit: string, deleted: bool)

  datatype ServiceItem = ServiceItem(id: string, company: string, code: string, defaultRate: Option<real>, unit: string, deleted: bool)

  datatype Mapping = Mapping(company: string, provider: string, entityType: string, localRef: string, status: string, deleted: bool)

  datatype LibraryItem = LibraryItem(
    id: string, company: Option<string>, code: string, materialRate: Option<real>, laborRate: Option<real>, unit: string,
    updatedAt: int, deleted: bool)

  datatype Tables = Tables(
    projectOverrides: seq<Override>, customerOverrides: seq<Override>, companyOverrides: seq<Override>,
    serviceItems: seq<ServiceItem>, mappings: seq<Mapping>, library: seq<LibraryItem>)

  datatype Scope = Scope(company: string, project: string, customer: Option<string>)

  /** A row of the united layers. */
  datatype ChainRow = ChainRow(priority: int, source: Source, sourceId: string, rate: Option<real>, unit: string, code: string)

  datatype Resolution = Resolution(price: real, unit: string, source: Source, sourceId: string)

  datatype PricingError = ServiceItemNotFound

  function Priced(row: ChainRow): Resolution {
    Resolution(row.rate.GetOr(0.0), row.unit, row.source, row.sourceId)
  }

  // ---------- the layers ----------

  predicate OverrideHit(row: Override, company: string, owner: string, codes: set<string>) {
    row.company == company && row.owner == owner && row.code in codes && !row.deleted
  }

  function OverrideRows(table: seq<Override>, priority: int, source: Source, company: string, owner: string,
      codes: set<string>): seq<ChainRow> {
    if table == [] then []
    else
      (if OverrideHit(table[0], company, owner, codes)
       then [ChainRow(priority, source, table[0].id, Some(table[0].rate), table[0].unit, table[0].code)] else [])
      + OverrideRows(table[1..], priority, source, company, owner, codes)
  }

  /** The inner join of a service item with the mappings that make it a QBO item. */
  predicate Mapped(mapping: Mapping, item: ServiceItem) {
    mapping.company == item.company && mapping.provider == "qbo" && mapping.entityType == "service_item"
    && mapping.localRef == item.code && mapping.status == "active" && !mapping.deleted
  }

  function JoinedRows(mappings: seq<Mapping>, item: ServiceItem): seq<ChainRow> {
    if mappings == [] then []
    else
      (if Mapped(mappings[0], item) then [ChainRow(4, QboSource, item.id, item.defaultRate, item.unit, item.code)] else [])
      + JoinedRows(mappings[1..], item)
  }

  predicate ItemHit(item: ServiceItem, company: string, codes: set<string>) {
    item.company == company && item.code in codes && !item.deleted
  }

  function QboRows(items: seq<ServiceItem>, mappings: seq<Mapping>, company: string, codes: set<string>): seq<ChainRow> {
    if items == [] then []
    else
      (if ItemHit(items[0], company, codes) && items[0].defaultRate.Some? then JoinedRows(mappings, items[0]) else [])
      + QboRows(items[1..], mappings, company, codes)
  }

  function FallbackRows(items: seq<ServiceItem>, company: string, codes: set<string>): seq<ChainRow> {
    if items == [] then []
    else
      (if ItemHit(items[0], company, codes)
       then [ChainRow(5, FallbackSource, items[0].id, items[0].defaultRate, items[0].unit, items[0].code)] else [])
      + FallbackRows(items[1..], company, codes)
  }

  /** Layers 1 to 5 for a set of codes, in priority order. */
  function UpperLayers(t: Tables, scope: Scope, codes: set<string>): seq<ChainRow> {
    OverrideRows(t.projectOverrides, 1, ProjectSource, scope.company, scope.project, codes)
    + (if scope.customer.None? then [] else OverrideRows(t.customerOverrides, 2, CustomerSource, scope.company,
        scope.customer.value, codes))
    + OverrideRows(t.companyOverrides, 3, CompanySource, scope.company, "", codes)
    + QboRows(t.serviceItems, t.mappings, scope.company, codes)
    + FallbackRows(t.serviceItems, scope.company, codes)
  }

  predicate LibraryHit(item: LibraryItem, company: string, codes: set<string>) {
    (item.company == Some(company) || item.company.None?) && item.code in codes && !item.deleted
  }

  function LibraryHits(library: seq<LibraryItem>, company: string, codes: set<string>): seq<LibraryItem> {
    if library == [] then []
    else (if LibraryHit(library[0], company, codes) then [library[0]] else []) + LibraryHits(library[1..], company, codes)
  }

  function LibraryRow(item: LibraryItem): ChainRow {
    ChainRow(6, LibrarySource, item.id, Some(item.materialRate.GetOr(0.0) + item.laborRate.GetOr(0.0)), item.unit, item.code)
  }

  function LibraryRows(items: seq<LibraryItem>): seq<ChainRow> {
    seq(|items|, i requires 0 <= i < |items| => LibraryRow(items[i]))
  }

  // ---------- first of each group ----------

  /** Two sort keys, compared one after the other. */
  datatype Order<!T> = Order(first: T -> int, second: T -> int)

  predicate Before<T>(order: Order<T>, a: T, b: T) {
    order.first(a) < order.first(b) || (order.first(a) == order.first(b) && order.second(a) < order.second(b))
  }

  /** No row of its group sorts before it. */
  ghost predicate Leads<T>(x: T, rows: seq<T>, group: T -> string, order: Order<T>) {
    x in rows && forall r :: r in rows && group(r) == group(x) ==> !Before(order, r, x)
  }

  ghost predicate Represented<T>(chosen: seq<T>, group: T -> string, g: string) {
    exists i :: 0 <= i < |chosen| && group(chosen[i]) == g
  }

  /** `distinct on (group) … order by …`, and rank 1 of a `row_number() over (partition by group
      order by …)`: one row of each group, and no row of its group sorts before it. */
  ghost predicate FirstOfEach<T>(chosen: seq<T>, rows: seq<T>, group: T -> string, order: Order<T>) {
    (forall x :: x in chosen ==> Leads(x, rows, group, order))
    && (forall r :: r in rows ==> Represented(chosen, group, group(r)))
    && (forall i, j :: 0 <= i < j < |chosen| ==> group(chosen[i]) != group(chosen[j]))
  }

  function GroupAt<T>(chosen: seq<T>, group: T -> string, g: string): Option<nat> {
    if chosen == [] then None
    else if group(chosen[|chosen| - 1]) == g then Some(|chosen| - 1)
    else GroupAt(chosen[..|chosen| - 1], group, g)
  }

  lemma {:induction false} GroupAtFinds<T>(chosen: seq<T>, group: T -> string, g: string)
    ensures GroupAt(chosen, group, g).None? <==> forall i :: 0 <= i < |chosen| ==> group(chosen[i]) != g
    ensures GroupAt(chosen, group, g).Some? ==>
      GroupAt(chosen, group, g).value < |chosen| && group(chosen[GroupAt(chosen, group, g).value]) == g
  {
    if chosen != [] && group(chosen[|chosen| - 1]) != g {
      GroupAtFinds(chosen[..|chosen| - 1], group, g);
    }
  }

  lemma AddFirst<T>(chosen: seq<T>, rows: seq<T>, row: T, group: T -> string, order: Order<T>)
    requires FirstOfEach(chosen, rows, group, order) && !Represented(chosen, group, group(row))
    ensures FirstOfEach(chosen + [row], rows + [row], group, order)
  {
    var after := chosen + [row];
    forall x | x in after ensures Leads(x, rows + [row], group, order) {
      if x in chosen {
        assert Leads(x, rows, group, order);
        assert group(x) != group(row);
      }
    }
    forall r | r in rows + [row] ensures Represented(after, group, group(r)) {
      if r in rows {
        assert Represented(chosen, group, group(r));
        var i :| 0 <= i < |chosen| && group(chosen[i]) == group(r);
        assert after[i] == chosen[i];
      } else {
        assert after[|chosen|] == row;
      }
    }
  }

  lemma MeetAnother<T>(chosen: seq<T>, rows: seq<T>, row: T, group: T -> string, order: Order<T>, at: nat)
    requires FirstOfEach(chosen, rows, group, order) && at < |chosen| && group(chosen[at]) == group(row)
    ensures var after := if Before(order, row, chosen[at]) then chosen[at := row] else chosen;
      FirstOfEach(after, rows + [row], group, order)
  {
    var after := if Before(order, row, chosen[at]) then chosen[at := row] else chosen;
    assert Leads(chosen[at], rows, group, order);
    forall x | x in after ensures Leads(x, rows + [row], group, order) {
      var i :| 0 <= i < |after| && after[i] == x;
      assert Leads(chosen[i], rows, group, order);
      if i != at {
        assert group(chosen[i]) != group(chosen[at]);
      }
    }
    forall r | r in rows + [row] ensures Represented(after, group, group(r)) {
      var g := group(r);
      if r in rows {
        assert Represented(chosen, group, g);
        var i :| 0 <= i < |chosen| && group(chosen[i]) == g;
        assert group(after[i]) == g;
      } else {
        assert group(after[at]) == g;
      }
    }
    forall i, j | 0 <= i < j < |after| ensures group(after[i]) != group(after[j]) {
      assert group(after[i]) == group(chosen[i]) && group(after[j]) == group(chosen[j]);
    }
  }

  /** One admissible choice. */
  method ChooseFirsts<T(==)>(rows: seq<T>, group: T -> string, order: Order<T>) returns (chosen: seq<T>)
    ensures FirstOfEach(chosen, rows, group, order)
  {
    chosen := [];
    for i := 0 to |rows|
      invariant FirstOfEach(chosen, rows[..i], group, order)
    {
      var row := rows[i];
      assert rows[..i + 1] == rows[..i] + [row];
      GroupAtFinds(chosen, group, group(row));
      var at := GroupAt(chosen, group, group(row));
      if at.Some? && at.value < |chosen| {
        MeetAnother(chosen, rows[..i], row, group, order, at.value);
        if Before(order, row, chosen[at.value]) {
          chosen := chosen[at.value := row];
        }
      } else {
        AddFirst(chosen, rows[..i], row, group, order);
        chosen := chosen + [row];
      }
    }
    assert rows[..|rows|] == rows;
  }

  /** The company's own library rows first, then the newest. */
  function LibraryOrder(): Order<LibraryItem> {
    Order((x: LibraryItem) => if x.company.None? then 1 else 0, (x: LibraryItem) => -x.updatedAt)
  }

  function ByPriority(): Order<ChainRow> {
    Order((r: ChainRow) => r.priority, (r: ChainRow) => 0)
  }

  function CodeOf(): ChainRow -> string {
    (r: ChainRow) => r.code
  }

  function LowerCode(lower: string -> string): LibraryItem -> string {
    (x: LibraryItem) => lower(x.code)
  }

  function Same<T>(): T -> string {
    (x: T) => ""
  }

  // ---------- the two queries ----------

  ghost predicate SingleRows(t: Tables, scope: Scope, code: string, library: seq<LibraryItem>, winner: seq<ChainRow>) {
    FirstOfEach(library, LibraryHits(t.library, scope.company, {code}), Same<LibraryItem>(), LibraryOrder())
    && FirstOfEach(winner, UpperLayers(t, scope, {code}) + LibraryRows(library), Same<ChainRow>(), ByPriority())
  }

  /** An answer `resolvePrice` may give. */
  ghost predicate SingleAnswer(t: Tables, scope: Scope, raw: string, result: Result<Resolution, PricingError>) {
    var code := Trim(raw);
    if code == "" then result == Err(ServiceItemNotFound)
    else
      exists library, winner :: SingleRows(t, scope, code, library, winner)
        && result == if winner == [] then Err(ServiceItemNotFound) else Ok(Priced(winner[0]))
  }

  function Codes(raws: seq<string>): set<string> {
    set raw | raw in raws && Trim(raw) != "" :: Trim(raw)
  }

  ghost predicate BatchRows(t: Tables, scope: Scope, codes: set<string>, lower: string -> string, library: seq<LibraryItem>,
      winners: seq<ChainRow>) {
    FirstOfEach(library, LibraryHits(t.library, scope.company, codes), LowerCode(lower), LibraryOrder())
    && FirstOfEach(winners, UpperLayers(t, scope, codes) + LibraryRows(library), CodeOf(), ByPriority())
  }

  /** An answer `resolvePrices` may give; `lower` is the database's lower case. */
  ghost predicate BatchAnswer(t: Tables, scope: Scope, raws: seq<string>, lower: string -> string, result: map<string, Resolution>) {
    exists library, winners :: BatchRows(t, scope, Codes(raws), lower, library, winners) && FilledFrom(winners, result)
  }

  ghost predicate FilledFrom(winners: seq<ChainRow>, result: map<string, Resolution>) {
    (forall c :: c in result <==> exists i :: 0 <= i < |winners| && winners[i].code == c)
    && (forall i :: 0 <= i < |winners| ==> winners[i].code in result && result[winners[i].code] == Priced(winners[i]))
  }

  method ResolvePrice(t: Tables, scope: Scope, raw: string) returns (result: Result<Resolution, PricingError>)
    ensures SingleAnswer(t, scope, raw, result)
  {
    var code := Trim(raw);
    if code == "" {
      return Err(ServiceItemNotFound);
    }
    var library := ChooseFirsts(LibraryHits(t.library, scope.company, {code}), Same<LibraryItem>(), LibraryOrder());
    var winner := ChooseFirsts(UpperLayers(t, scope, {code}) + LibraryRows(library), Same<ChainRow>(), ByPriority());
    assert SingleRows(t, scope, code, library, winner);
    result := if winner == [] then Err(ServiceItemNotFound) else Ok(Priced(winner[0]));
  }

  /** The loop that fills the result map. */
  method FillMap(winners: seq<ChainRow>) returns (result: map<string, Resolution>)
    requires forall i, j :: 0 <= i < j < |winners| ==> winners[i].code != winners[j].code
    ensures FilledFrom(winners, result)
  {
    result := map[];
    for i := 0 to |winners|
      invariant forall c :: c in result <==> exists k :: 0 <= k < i && winners[k].code == c
      invariant forall k :: 0 <= k < i ==> winners[k].code in result && result[winners[k].code] == Priced(winners[k])
    {
      result := result[winners[i].code := Priced(winners[i])];
    }
  }

  method ResolvePrices(t: Tables, scope: Scope, raws: seq<string>, lower: string -> string) returns (result: map<string, Resolution>)
    ensures BatchAnswer(t, scope, raws, lower, result)
  {
    var codes := Codes(raws);
    var library := ChooseFirsts(LibraryHits(t.library, scope.company, codes), LowerCode(lower), LibraryOrder());
    var winners := ChooseFirsts(UpperLayers(t, scope, codes) + LibraryRows(library), CodeOf(), ByPriority());
    assert BatchRows(t, scope, codes, lower, library, winners);
    forall i, j | 0 <= i < j < |winners| ensures winners[i].code != winners[j].code {
      assert CodeOf()(winners[i]) != CodeOf()(winners[j]);
    }
    result := FillMap(winners);
  }
}
