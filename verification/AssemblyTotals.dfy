/** What the exploded lines add up to: the recipe's cost, the marked-up total up to rounding, and
    nothing for a measurement that is later deducted. */
module AssemblyTotals {
  import opened Basics
  import opened Sorting
  import opened Assembly

  // ---------- rounding ----------

  lemma Round2Close(x: real)
    ensures Abs(Round2(x) - x) <= 0.005
  {
  }

  lemma Round4Close(x: real)
    ensures Abs(Round4(x) - x) <= 0.00005
  {
  }

  /** A whole number of ten-thousandths, as `numeric(12,4)` stores. */
  predicate TenThousandths(x: real) {
    (x * 10000.0).Floor as real == x * 10000.0
  }

  predicate Cents(x: real) {
    (x * 100.0).Floor as real == x * 100.0
  }

  lemma WholeFloor(n: int, x: real)
    requires x == n as real
    ensures x.Floor == n && (x + 0.5).Floor == n
  {
  }

  lemma Round4Keeps(x: real)
    ensures TenThousandths(Round4(x))
  {
    WholeFloor((x * 10000.0 + 0.5).Floor, Round4(x) * 10000.0);
  }

  lemma Round4Fixed(x: real)
    requires TenThousandths(x)
    ensures Round4(x) == x
  {
    WholeFloor((x * 10000.0).Floor, x * 10000.0);
  }

  lemma Round2Keeps(x: real)
    ensures Cents(Round2(x))
  {
    WholeFloor((x * 100.0 + 0.5).Floor, Round2(x) * 100.0);
  }

  lemma Round2Fixed(x: real)
    requires Cents(x)
    ensures Round2(x) == x
  {
    WholeFloor((x * 100.0).Floor, x * 100.0);
  }

  predicate HalfCentWindow(x: real) {
    -0.005 <= x < 0.005
  }

  /** Rounding `x` gives `y` exactly when `y` is whole cents and `x` lies in the half-cent window
      around it. */
  lemma Round2Iff(x: real, y: real)
    ensures Round2(x) == y <==> Cents(y) && HalfCentWindow(x - y)
  {
    Round2Keeps(x);
    if Cents(y) {
      FloorIs(x * 100.0 + 0.5, (y * 100.0).Floor);
    }
  }

  predicate HalfStepWindow(x: real) {
    -0.00005 <= x < 0.00005
  }

  /** The same for ten-thousandths. */
  lemma Round4Iff(x: real, y: real)
    ensures Round4(x) == y <==> TenThousandths(y) && HalfStepWindow(x - y)
  {
    Round4Keeps(x);
    if TenThousandths(y) {
      FloorIs(x * 10000.0 + 0.5, (y * 10000.0).Floor);
    }
  }

  lemma FloorIs(x: real, n: int)
    ensures x.Floor == n <==> n as real <= x < n as real + 1.0
  {
  }

  lemma TenThousandthsAdd(x: real, y: real)
    requires TenThousandths(x) && TenThousandths(y)
    ensures TenThousandths(x + y)
  {
    assert ((x * 10000.0).Floor + (y * 10000.0).Floor) as real == (x + y) * 10000.0;
  }

  lemma CentsAdd(x: real, y: real)
    requires Cents(x) && Cents(y)
    ensures Cents(x + y)
  {
    assert ((x * 100.0).Floor + (y * 100.0).Floor) as real == (x + y) * 100.0;
  }

  // ---------- the cost side is exact ----------

  /** What each cost line contributes to a sum. */
  function AmountOf(): CostLine -> real {
    (line: CostLine) => line.amount
  }

  function MarkedOf(markup: Markup): CostLine -> real {
    (line: CostLine) => Marked(line, markup)
  }

  function RoundedOf(markup: Markup): CostLine -> real {
    (line: CostLine) => Round2(Marked(line, markup))
  }

  function Sum(costs: seq<CostLine>, value: CostLine -> real): real {
    if costs == [] then 0.0 else value(costs[0]) + Sum(costs[1..], value)
  }

  function KindSum(costs: seq<CostLine>, kind: Kind, value: CostLine -> real): real {
    if costs == [] then 0.0 else (if costs[0].kind == kind then value(costs[0]) else 0.0) + KindSum(costs[1..], kind, value)
  }

  lemma {:induction false} KindsPartition(costs: seq<CostLine>, value: CostLine -> real)
    ensures Sum(costs, value)
      == KindSum(costs, Material, value) + KindSum(costs, Labor, value) + KindSum(costs, Sub, value) + KindSum(costs, Freight, value)
  {
    if costs != [] {
      KindsPartition(costs[1..], value);
    }
  }

  predicate Stored(costs: seq<CostLine>) {
    forall i :: 0 <= i < |costs| ==> TenThousandths(costs[i].amount)
  }

  predicate StoredTotals(s: Subtotals) {
    TenThousandths(s.material) && TenThousandths(s.labor) && TenThousandths(s.sub) && TenThousandths(s.freight)
  }

  lemma {:induction false} CostLinesStored(components: seq<Component>, assemblyId: string, price: Component -> CostLine)
    requires forall c :: TenThousandths(price(c).amount)
    ensures Stored(CostLines(components, assemblyId, price))
  {
    if components != [] {
      CostLinesStored(components[1..], assemblyId, price);
    }
  }

  lemma ExtendedStored(quantity: real, unitCost: real)
    ensures TenThousandths(Extended(quantity, unitCost))
  {
    Round4Keeps(quantity * unitCost);
  }

  lemma PricesStored(quantity: real, overrides: map<string, real>)
    ensures var price := Pricer(quantity, overrides); forall c :: TenThousandths(price(c).amount)
  {
    forall c ensures TenThousandths(Pricer(quantity, overrides)(c).amount) {
      ExtendedStored(Pricer(quantity, overrides)(c).quantity, c.unitCost);
    }
  }

  lemma AddedExact(s: Subtotals, kind: Kind, amount: real, other: Kind)
    requires StoredTotals(s) && TenThousandths(amount)
    ensures StoredTotals(Added(s, kind, amount))
    ensures Of(Added(s, kind, amount), other) == Of(s, other) + (if kind == other then amount else 0.0)
  {
    TenThousandthsAdd(Of(s, kind), amount);
    Round4Fixed(Of(s, kind) + amount);
  }

  lemma {:induction false} ByKindExact(costs: seq<CostLine>, sofar: Subtotals, kind: Kind)
    requires Stored(costs) && StoredTotals(sofar)
    ensures Of(ByKind(costs, sofar), kind) == Of(sofar, kind) + KindSum(costs, kind, AmountOf())
  {
    if costs != [] {
      AddedExact(sofar, costs[0].kind, costs[0].amount, kind);
      ByKindExact(costs[1..], Added(sofar, costs[0].kind, costs[0].amount), kind);
    }
  }

  lemma {:induction false} TotalExact(costs: seq<CostLine>, sofar: real)
    requires Stored(costs) && TenThousandths(sofar)
    ensures TotalOf(costs, sofar) == sofar + Sum(costs, AmountOf())
  {
    if costs != [] {
      TenThousandthsAdd(sofar, costs[0].amount);
      Round4Fixed(sofar + costs[0].amount);
      TotalExact(costs[1..], sofar + costs[0].amount);
    }
  }

  lemma NothingStored()
    ensures TenThousandths(0.0) && StoredTotals(NOTHING)
  {
  }

  /** Repeated rounding loses nothing on the cost side: every subtotal is the sum of its kind's
      lines, and the four subtotals add up to the total. */
  lemma CostsAddUp(args: Args, outside: Outside)
    requires Explode(args, outside).Ok?
    ensures var e := Explode(args, outside).value;
      && (forall kind :: Of(e.byKind, kind) == KindSum(e.costs, kind, AmountOf()))
      && e.total == Sum(e.costs, AmountOf())
      && e.total == e.byKind.material + e.byKind.labor + e.byKind.sub + e.byKind.freight
  {
    var e := Explode(args, outside).value;
    StoredCosts(args, outside);
    NothingStored();
    TotalExact(e.costs, 0.0);
    KindsPartition(e.costs, AmountOf());
    forall kind: Kind ensures Of(e.byKind, kind) == KindSum(e.costs, kind, AmountOf()) {
      ByKindExact(e.costs, NOTHING, kind);
    }
  }

  lemma StoredCosts(args: Args, outside: Outside)
    requires Explode(args, outside).Ok?
    ensures Stored(Explode(args, outside).value.costs)
  {
    var included := Included(args.assembly.components, args.measurement, outside).value;
    var overrides := Resolved(included, args.measurement, outside, map[]).value;
    PricesStored(args.measurement.quantity, overrides);
    CostLinesStored(SortBy(included, SortOrder()), args.assembly.header.id, Pricer(args.measurement.quantity, overrides));
  }

  // ---------- the markup ----------

  function Total(kinds: seq<Kind>, value: Kind -> real): real {
    if kinds == [] then 0.0 else value(kinds[0]) + Total(kinds[1..], value)
  }

  /** A subtotal times its multiplier, before and after rounding to cents. */
  function LiftOf(s: Subtotals, multiplier: Kind -> real): Kind -> real {
    (kind: Kind) => Of(s, kind) * multiplier(kind)
  }

  function CentsOf(s: Subtotals, multiplier: Kind -> real): Kind -> real {
    (kind: Kind) => MarkedUp(Of(s, kind), multiplier(kind))
  }

  function WithCost(kinds: seq<Kind>, s: Subtotals): nat {
    if kinds == [] then 0 else (if Of(s, kinds[0]) == 0.0 then 0 else 1) + WithCost(kinds[1..], s)
  }

  /** The multipliers the explosion reads off the markup rows. */
  function RowMultiplier(markup: Markup): Kind -> real {
    (kind: Kind) => MultiplierOf(markup.rows, OfKind(kind))
  }

  predicate HasProfitRow(markup: Markup) {
    markup.rows != [] && markup.rows[|markup.rows| - 1].basis == Profit
  }

  /** The rows of the kinds, with their multipliers and rounded amounts. */
  ghost predicate RowsAre(rowOf: Kind -> seq<MarkupRow>, s: Subtotals, multiplier: Kind -> real, cents: Kind -> real) {
    forall kind ::
      && Cents(cents(kind))
      && if Of(s, kind) == 0.0 then rowOf(kind) == [] && cents(kind) == 0.0
         else
           |rowOf(kind)| == 1 && rowOf(kind)[0].basis == OfKind(kind) && rowOf(kind)[0].multiplier == multiplier(kind)
           && rowOf(kind)[0].after == cents(kind)
  }

  lemma RowsOf(s: Subtotals, m: Kind -> real)
    ensures RowsAre(RowOf(s, m), s, m, CentsOf(s, m))
  {
    forall kind: Kind ensures Cents(CentsOf(s, m)(kind)) && (Of(s, kind) == 0.0 ==> CentsOf(s, m)(kind) == 0.0) {
      Round2Keeps(Of(s, kind) * m(kind));
      LiftClose(Of(s, kind), m(kind));
    }
  }

  lemma RowAdds(rowOf: Kind -> seq<MarkupRow>, s: Subtotals, m: Kind -> real, cents: Kind -> real, kind: Kind, sofar: real)
    requires RowsAre(rowOf, s, m, cents) && Cents(sofar)
    ensures Cents(sofar + cents(kind))
    ensures RunningTotal(rowOf(kind), sofar) == sofar + cents(kind)
  {
    CentsAdd(sofar, cents(kind));
    Round2Fixed(sofar + cents(kind));
    if Of(s, kind) != 0.0 {
      assert rowOf(kind)[1..] == [];
    }
  }

  lemma {:induction false} RunningTotalAppend(rows: seq<MarkupRow>, more: seq<MarkupRow>, sofar: real)
    ensures RunningTotal(rows + more, sofar) == RunningTotal(more, RunningTotal(rows, sofar))
  {
    if rows == [] {
      assert rows + more == more;
    } else {
      assert (rows + more)[0] == rows[0] && (rows + more)[1..] == rows[1..] + more;
      RunningTotalAppend(rows[1..], more, Round2(sofar + rows[0].after));
    }
  }

  /** Adding up the rounded rows loses nothing more. */
  lemma {:induction false} RunningTotalExact(
      kinds: seq<Kind>, rowOf: Kind -> seq<MarkupRow>, s: Subtotals, m: Kind -> real, cents: Kind -> real, sofar: real)
    requires RowsAre(rowOf, s, m, cents) && Cents(sofar)
    ensures RunningTotal(KindRows(kinds, rowOf), sofar) == sofar + Total(kinds, cents)
    ensures Cents(sofar + Total(kinds, cents))
  {
    if kinds != [] {
      RowAdds(rowOf, s, m, cents, kinds[0], sofar);
      RunningTotalAppend(rowOf(kinds[0]), KindRows(kinds[1..], rowOf), sofar);
      RunningTotalExact(kinds[1..], rowOf, s, m, cents, sofar + cents(kinds[0]));
    }
  }

  lemma LiftClose(raw: real, multiplier: real)
    ensures Abs(MarkedUp(raw, multiplier) - raw * multiplier) <= if raw == 0.0 then 0.0 else 0.005
    ensures raw == 0.0 ==> raw * multiplier == 0.0 == MarkedUp(raw, multiplier)
  {
    Round2Close(raw * multiplier);
    if raw == 0.0 {
      WholeFloor(0, raw * multiplier * 100.0);
    }
  }

  ghost predicate Near(s: Subtotals, cents: Kind -> real, lift: Kind -> real) {
    forall kind :: Abs(cents(kind) - lift(kind)) <= if Of(s, kind) == 0.0 then 0.0 else 0.005
  }

  lemma {:induction false} TotalsNear(kinds: seq<Kind>, s: Subtotals, cents: Kind -> real, lift: Kind -> real)
    requires Near(s, cents, lift)
    ensures Abs(Total(kinds, cents) - Total(kinds, lift)) <= 0.005 * WithCost(kinds, s) as real
  {
    if kinds != [] {
      TotalsNear(kinds[1..], s, cents, lift);
    }
  }

  lemma LiftNear(raw: real, multiplier: real, cents: real, lift: real)
    requires cents == MarkedUp(raw, multiplier) && lift == raw * multiplier
    ensures Abs(cents - lift) <= if raw == 0.0 then 0.0 else 0.005
  {
    LiftClose(raw, multiplier);
  }

  lemma LiftsNear(s: Subtotals, m: Kind -> real)
    ensures Near(s, CentsOf(s, m), LiftOf(s, m))
  {
    forall kind: Kind ensures Abs(CentsOf(s, m)(kind) - LiftOf(s, m)(kind)) <= if Of(s, kind) == 0.0 then 0.0 else 0.005 {
      LiftNear(Of(s, kind), m(kind), CentsOf(s, m)(kind), LiftOf(s, m)(kind));
    }
  }

  lemma {:induction false} MultiplierAppend(rows: seq<MarkupRow>, more: seq<MarkupRow>, basis: Basis)
    ensures MultiplierOf(rows + more, basis)
      == if exists i :: 0 <= i < |more| && more[i].basis == basis then MultiplierOf(more, basis) else MultiplierOf(rows, basis)
  {
    if more == [] {
      assert rows + more == rows;
    } else {
      var front, last := more[..|more| - 1], more[|more| - 1];
      assert (rows + more)[..|rows + more| - 1] == rows + front;
      assert forall i :: 0 <= i < |front| ==> front[i] == more[i];
      MultiplierAppend(rows, front, basis);
    }
  }

  predicate NamesOnly(rows: seq<MarkupRow>, kinds: seq<Kind>) {
    forall i :: 0 <= i < |rows| ==> rows[i].basis.OfKind? && rows[i].basis.kind in kinds
  }

  lemma {:induction false} KindRowBases(
      kinds: seq<Kind>, rowOf: Kind -> seq<MarkupRow>, s: Subtotals, m: Kind -> real, cents: Kind -> real)
    requires RowsAre(rowOf, s, m, cents)
    ensures NamesOnly(KindRows(kinds, rowOf), kinds)
  {
    if kinds != [] {
      KindRowBases(kinds[1..], rowOf, s, m, cents);
      assert NamesOnly(rowOf(kinds[0]), kinds) by {
        assert Of(s, kinds[0]) == 0.0 || |rowOf(kinds[0])| == 1;
      }
    }
  }

  lemma {:induction false} NoRowNoMultiplier(rows: seq<MarkupRow>, basis: Basis)
    requires forall i :: 0 <= i < |rows| ==> rows[i].basis != basis
    ensures MultiplierOf(rows, basis) == 1.0
  {
    if rows != [] {
      NoRowNoMultiplier(rows[..|rows| - 1], basis);
    }
  }

  predicate Distinct(kinds: seq<Kind>) {
    forall i, j :: 0 <= i < j < |kinds| ==> kinds[i] != kinds[j]
  }

  lemma {:induction false} KindRowMultiplier(
      kinds: seq<Kind>, rowOf: Kind -> seq<MarkupRow>, s: Subtotals, m: Kind -> real, cents: Kind -> real, kind: Kind)
    requires Distinct(kinds) && RowsAre(rowOf, s, m, cents)
    ensures MultiplierOf(KindRows(kinds, rowOf), OfKind(kind)) == if kind in kinds && Of(s, kind) != 0.0 then m(kind) else 1.0
  {
    if kinds != [] {
      var first, rest := rowOf(kinds[0]), KindRows(kinds[1..], rowOf);
      KindRowBases(kinds[1..], rowOf, s, m, cents);
      KindRowMultiplier(kinds[1..], rowOf, s, m, cents, kind);
      MultiplierAppend(first, rest, OfKind(kind));
      if forall i :: 0 <= i < |rest| ==> rest[i].basis != OfKind(kind) {
        NoRowNoMultiplier(rest, OfKind(kind));
        assert first == [] || first[..0] == [];
      }
    }
  }

  /** What the explosion needs of a markup: no multiplier lowers a price, every subtotal is lifted by
      its own multiplier and then by the profit, and the total strays from that by half a cent for
      each kind (lifted by the profit) and for the profit row. */
  ghost predicate Faithful(s: Subtotals, markup: Markup) {
    && MultiplierOf(markup.rows, Profit) >= 1.0
    && (forall kind :: MultiplierOf(markup.rows, OfKind(kind)) >= 1.0)
    && TotalWithin(markup, LiftedTotal(s, markup), HalfCents(s))
    && (!HasProfitRow(markup) ==>
        MultiplierOf(markup.rows, Profit) == 1.0 && markup.total == Total(KINDS, CentsOf(s, RowMultiplier(markup))))
  }

  /** The subtotals with the markup's multipliers applied, not rounded. */
  function LiftedTotal(s: Subtotals, markup: Markup): real {
    Total(KINDS, LiftOf(s, RowMultiplier(markup)))
  }

  predicate IsProduct(x: real, a: real, b: real) {
    x == a * b
  }

  predicate IsProfited(x: real, lifted: real, markup: Markup) {
    IsProduct(x, lifted, MultiplierOf(markup.rows, Profit))
  }

  /** Half a cent for every kind that has a cost. */
  function HalfCents(s: Subtotals): real {
    0.005 * WithCost(KINDS, s) as real
  }

  /** `halfCents` lifted by the profit, and half a cent for the profit row. */
  function Slack(halfCents: real, markup: Markup): real {
    halfCents * MultiplierOf(markup.rows, Profit) + (if HasProfitRow(markup) then 0.005 else 0.0)
  }

  /** The total is `lifted` plus profit, up to `slack` plus profit and half a cent for the profit row. */
  predicate TotalWithin(markup: Markup, lifted: real, slack: real) {
    Abs(markup.total - lifted * MultiplierOf(markup.rows, Profit)) <= Slack(slack, markup)
  }

  lemma ProfitRow(rows: seq<MarkupRow>, subtotal: real, wanted: bool, multiplier: real, markup: Markup)
    requires markup == WithProfit(rows, subtotal, wanted, multiplier) && Cents(subtotal)
    requires forall i :: 0 <= i < |rows| ==> rows[i].basis != Profit
    ensures HasProfitRow(markup) <==> wanted && subtotal > 0.0
    ensures MultiplierOf(markup.rows, Profit) == if HasProfitRow(markup) then multiplier else 1.0
    ensures forall kind :: MultiplierOf(markup.rows, OfKind(kind)) == MultiplierOf(rows, OfKind(kind))
    ensures markup.total == if HasProfitRow(markup) then MarkedUp(subtotal, multiplier) else subtotal
  {
    Round2Fixed(subtotal);
    Round2Keeps(subtotal * multiplier);
    Round2Fixed(Round2(subtotal * multiplier));
    NoRowNoMultiplier(rows, Profit);
    if HasProfitRow(markup) {
      assert markup.rows[..|markup.rows| - 1] == rows;
    }
  }

  lemma {:induction false} TotalSame(kinds: seq<Kind>, v: Kind -> real, w: Kind -> real)
    requires forall kind :: v(kind) == w(kind)
    ensures Total(kinds, v) == Total(kinds, w)
  {
    if kinds != [] {
      TotalSame(kinds[1..], v, w);
    }
  }

  lemma LiftSame(s: Subtotals, m: Kind -> real, n: Kind -> real)
    requires forall kind :: Of(s, kind) == 0.0 || m(kind) == n(kind)
    ensures Total(KINDS, LiftOf(s, m)) == Total(KINDS, LiftOf(s, n))
    ensures Total(KINDS, CentsOf(s, m)) == Total(KINDS, CentsOf(s, n))
  {
    forall kind: Kind ensures LiftOf(s, m)(kind) == LiftOf(s, n)(kind) && CentsOf(s, m)(kind) == CentsOf(s, n)(kind) {
      LiftClose(Of(s, kind), m(kind));
      LiftClose(Of(s, kind), n(kind));
    }
    TotalSame(KINDS, LiftOf(s, m), LiftOf(s, n));
    TotalSame(KINDS, CentsOf(s, m), CentsOf(s, n));
  }

  lemma RowMultipliers(rowOf: Kind -> seq<MarkupRow>, s: Subtotals, m: Kind -> real, cents: Kind -> real, kind: Kind)
    requires RowsAre(rowOf, s, m, cents)
    ensures MultiplierOf(KindRows(KINDS, rowOf), OfKind(kind)) == if Of(s, kind) == 0.0 then 1.0 else m(kind)
  {
    KindRowMultiplier(KINDS, rowOf, s, m, cents, kind);
  }

  lemma RowsTotal(rowOf: Kind -> seq<MarkupRow>, s: Subtotals, m: Kind -> real, cents: Kind -> real)
    requires RowsAre(rowOf, s, m, cents)
    ensures var subtotal := RunningTotal(KindRows(KINDS, rowOf), 0.0); subtotal == Total(KINDS, cents) && Cents(subtotal)
  {
    RunningTotalExact(KINDS, rowOf, s, m, cents, 0.0);
  }

  lemma ProfitClose(rows: seq<MarkupRow>, subtotal: real, lifted: real, slack: real, wanted: bool, p: real, markup: Markup)
    requires markup == WithProfit(rows, subtotal, wanted, p) && Cents(subtotal)
    requires forall i :: 0 <= i < |rows| ==> rows[i].basis != Profit
    requires Abs(subtotal - lifted) <= slack && p >= 1.0
    ensures TotalWithin(markup, lifted, slack)
  {
    ProfitRow(rows, subtotal, wanted, p, markup);
    TotalClose(subtotal, lifted, slack, p);
    if HasProfitRow(markup) {
      WithinProfited(markup, lifted, slack, p, MarkedUp(subtotal, p));
    } else {
      WithinPlain(markup, lifted, slack);
    }
  }

  lemma WithinProfited(markup: Markup, lifted: real, slack: real, p: real, total: real)
    requires HasProfitRow(markup) && MultiplierOf(markup.rows, Profit) == p && markup.total == total
    requires Abs(total - lifted * p) <= slack * p + 0.005
    ensures TotalWithin(markup, lifted, slack)
  {
  }

  lemma WithinPlain(markup: Markup, lifted: real, slack: real)
    requires !HasProfitRow(markup) && MultiplierOf(markup.rows, Profit) == 1.0 && Abs(markup.total - lifted) <= slack
    ensures TotalWithin(markup, lifted, slack)
  {
  }

  lemma RowsClose(
      rowOf: Kind -> seq<MarkupRow>, s: Subtotals, m: Kind -> real, cents: Kind -> real, lift: Kind -> real, wanted: bool,
          p: real, markup: Markup)
    requires RowsAre(rowOf, s, m, cents) && Near(s, cents, lift) && p >= 1.0
    requires var rows := KindRows(KINDS, rowOf); markup == WithProfit(rows, RunningTotal(rows, 0.0), wanted, p)
    ensures TotalWithin(markup, Total(KINDS, lift), HalfCents(s))
  {
    var rows := KindRows(KINDS, rowOf);
    RowsTotal(rowOf, s, m, cents);
    KindRowBases(KINDS, rowOf, s, m, cents);
    TotalsNear(KINDS, s, cents, lift);
    ProfitClose(rows, RunningTotal(rows, 0.0), Total(KINDS, lift), HalfCents(s), wanted, p, markup);
  }

  lemma RowsMultiply(
      rowOf: Kind -> seq<MarkupRow>, s: Subtotals, m: Kind -> real, cents: Kind -> real, wanted: bool, p: real, markup: Markup)
    requires RowsAre(rowOf, s, m, cents)
    requires var rows := KindRows(KINDS, rowOf); markup == WithProfit(rows, RunningTotal(rows, 0.0), wanted, p)
    ensures MultiplierOf(markup.rows, Profit) == if HasProfitRow(markup) then p else 1.0
    ensures forall kind :: RowMultiplier(markup)(kind) == if Of(s, kind) == 0.0 then 1.0 else m(kind)
    ensures HasProfitRow(markup) <==> wanted && Total(KINDS, cents) > 0.0
    ensures markup.total == if HasProfitRow(markup) then MarkedUp(Total(KINDS, cents), p) else Total(KINDS, cents)
    ensures Cents(Total(KINDS, cents))
  {
    var rows := KindRows(KINDS, rowOf);
    RowsTotal(rowOf, s, m, cents);
    KindRowBases(KINDS, rowOf, s, m, cents);
    ProfitRow(rows, RunningTotal(rows, 0.0), wanted, p, markup);
    forall kind ensures MultiplierOf(rows, OfKind(kind)) == if Of(s, kind) == 0.0 then 1.0 else m(kind) {
      RowMultipliers(rowOf, s, m, cents, kind);
    }
  }

  lemma MarkupFaithful(s: Subtotals, m: Kind -> real, wanted: bool, p: real, markup: Markup)
    requires (forall kind :: m(kind) >= 1.0) && p >= 1.0
    requires var rows := KindRows(KINDS, RowOf(s, m)); markup == WithProfit(rows, RunningTotal(rows, 0.0), wanted, p)
    ensures Faithful(s, markup)
  {
    RowsOf(s, m);
    LiftsNear(s, m);
    RowsMultiply(RowOf(s, m), s, m, CentsOf(s, m), wanted, p, markup);
    RowsClose(RowOf(s, m), s, m, CentsOf(s, m), LiftOf(s, m), wanted, p, markup);
    LiftSame(s, m, RowMultiplier(markup));
  }

  lemma TotalClose(subtotal: real, lifted: real, slack: real, p: real)
    requires Abs(subtotal - lifted) <= slack && p >= 1.0
    ensures Abs(subtotal * p - lifted * p) <= slack * p
    ensures Abs(MarkedUp(subtotal, p) - lifted * p) <= slack * p + 0.005
  {
    ScaledGap(subtotal, lifted, slack, p);
    RoundedGap(subtotal * p, lifted * p, slack * p, MarkedUp(subtotal, p));
  }

  lemma ScaledGap(x: real, y: real, slack: real, p: real)
    requires Abs(x - y) <= slack && p >= 0.0
    ensures Abs(x * p - y * p) <= slack * p
  {
    var gap := x - y;
    assert gap * p == x * p - y * p;
    assert gap * p <= slack * p && (-slack) * p <= gap * p;
    assert (-slack) * p == -(slack * p);
  }

  lemma RoundedGap(x: real, y: real, slack: real, rounded: real)
    requires Abs(x - y) <= slack && rounded == Round2(x)
    ensures Abs(rounded - y) <= slack + 0.005
  {
    Round2Close(x);
  }

  lemma ReciprocalAtLeastOne(x: real)
    requires 0.0 < x <= 1.0
    ensures 1.0 / x >= 1.0
  {
  }

  lemma Round4AtLeastOne(x: real)
    requires x >= 1.0
    ensures Round4(x) >= 1.0
  {
    assert (x * 10000.0 + 0.5).Floor >= 10000;
  }

  /** No markup ever lowers a price. */
  lemma AtLeastOne(raw: RawConfig)
    ensures ProfitFactor(NormalizeConfig(raw).profitMargin) >= 1.0
    ensures forall kind :: Multipliers(NormalizeConfig(raw))(kind) >= 1.0
  {
    var config := NormalizeConfig(raw);
    var cost := 1.0 - Min(config.profitMargin, 99.0) / 100.0;
    ReciprocalAtLeastOne(cost);
    Round4AtLeastOne(1.0 / cost);
    forall kind ensures Multipliers(config)(kind) >= 1.0 {
      Round4AtLeastOne(1.0 + Percent(config, kind) / 100.0);
    }
  }

  // ---------- the multipliers, read off the inputs ----------

  /** What lifts the lines of a kind: its multiplier, or nothing when the kind has no cost. */
  function KindLift(s: Subtotals, config: MarkupConfig): Kind -> real {
    (kind: Kind) => if Of(s, kind) == 0.0 then 1.0 else Multipliers(config)(kind)
  }

  /** The rounded rows of the kinds, added up. */
  function SubtotalCents(s: Subtotals, config: MarkupConfig): real {
    Total(KINDS, CentsOf(s, KindLift(s, config)))
  }

  function ProfitLift(s: Subtotals, config: MarkupConfig): real {
    if config.profitMargin > 0.0 && SubtotalCents(s, config) > 0.0 then ProfitFactor(config.profitMargin) else 1.0
  }

  /** The markup has these multipliers and this total. */
  ghost predicate ReadsAs(markup: Markup, s: Subtotals, lift: Kind -> real, profit: real) {
    && (forall kind :: RowMultiplier(markup)(kind) == lift(kind))
    && MultiplierOf(markup.rows, Profit) == profit
    && markup.total == MarkedUp(Total(KINDS, CentsOf(s, lift)), profit)
  }

  lemma PlainTotal(subtotal: real)
    requires Cents(subtotal)
    ensures MarkedUp(subtotal, 1.0) == subtotal
  {
    assert subtotal * 1.0 == subtotal;
    Round2Fixed(subtotal);
  }

  lemma MarkupReads(s: Subtotals, config: MarkupConfig, m: Kind -> real, p: real, markup: Markup)
    requires m == Multipliers(config) && p == ProfitFactor(config.profitMargin)
    requires var rows := KindRows(KINDS, RowOf(s, m)); markup == WithProfit(rows, RunningTotal(rows, 0.0), config.profitMargin > 0.0, p)
    ensures ReadsAs(markup, s, KindLift(s, config), ProfitLift(s, config))
  {
    RowsOf(s, m);
    RowsMultiply(RowOf(s, m), s, m, CentsOf(s, m), config.profitMargin > 0.0, p, markup);
    LiftSame(s, m, KindLift(s, config));
    PlainTotal(SubtotalCents(s, config));
  }

  /** The multipliers and the total of an explosion, from its costs and the pricing profile. */
  lemma ExplosionReads(args: Args, outside: Outside)
    requires Explode(args, outside).Ok?
    ensures var e, config := Explode(args, outside).value, NormalizeConfig(args.profile);
      ReadsAs(e.markup, e.byKind, KindLift(e.byKind, config), ProfitLift(e.byKind, config))
  {
    var e, config := Explode(args, outside).value, NormalizeConfig(args.profile);
    MarkupReads(e.byKind, config, Multipliers(config), ProfitFactor(config.profitMargin), e.markup);
  }

  // ---------- the lines ----------

  function AmountSum(lines: seq<Line>): real {
    if lines == [] then 0.0 else lines[0].amount + AmountSum(lines[1..])
  }

  lemma LinesTail(costs: seq<CostLine>, lineOf: CostLine -> Line)
    requires costs != []
    ensures LinesOf(costs, lineOf)[1..] == LinesOf(costs[1..], lineOf)
  {
  }

  lemma {:induction false} LinesSum(costs: seq<CostLine>, markup: Markup, args: Args, outside: Outside)
    ensures AmountSum(LinesOf(costs, Liner(markup, args, outside))) == Signed(args.isDeduction, Sum(costs, RoundedOf(markup)))
  {
    if costs != [] {
      LinesTail(costs, Liner(markup, args, outside));
      LinesSum(costs[1..], markup, args, outside);
    }
  }

  lemma {:induction false} RoundingClose(costs: seq<CostLine>, markup: Markup)
    ensures Abs(Sum(costs, RoundedOf(markup)) - Sum(costs, MarkedOf(markup))) <= 0.005 * |costs| as real
  {
    if costs != [] {
      RoundingClose(costs[1..], markup);
      Round2Close(Marked(costs[0], markup));
      assert |costs| as real == 1.0 + |costs[1..]| as real;
    }
  }

  predicate IsMarked(x: real, raw: real, multiplier: real, profit: real) {
    x == raw * multiplier * profit
  }

  lemma {:induction false} KindMarked(costs: seq<CostLine>, kind: Kind, markup: Markup)
    ensures IsMarked(KindSum(costs, kind, MarkedOf(markup)), KindSum(costs, kind, AmountOf()),
      MultiplierOf(markup.rows, OfKind(kind)), MultiplierOf(markup.rows, Profit))
  {
    if costs != [] {
      KindMarked(costs[1..], kind, markup);
      if costs[0].kind == kind {
        Spread(costs[0].amount, KindSum(costs[1..], kind, AmountOf()), MultiplierOf(markup.rows, OfKind(kind)),
            MultiplierOf(markup.rows, Profit));
      }
    }
  }

  lemma Spread(a: real, b: real, m: real, p: real)
    ensures (a + b) * m * p == a * m * p + b * m * p
  {
  }

  lemma Factor(a: real, b: real, p: real)
    ensures (a + b) * p == a * p + b * p
  {
  }

  /** A lift with the profit on top. */
  function Profited(lift: Kind -> real, p: real): Kind -> real {
    (kind: Kind) => lift(kind) * p
  }

  lemma {:induction false} TotalProfited(kinds: seq<Kind>, lift: Kind -> real, p: real)
    ensures IsProduct(Total(kinds, Profited(lift, p)), Total(kinds, lift), p)
  {
    if kinds != [] {
      TotalProfited(kinds[1..], lift, p);
      Factor(lift(kinds[0]), Total(kinds[1..], lift), p);
    }
  }

  lemma SumByKind(costs: seq<CostLine>, value: CostLine -> real, w: Kind -> real)
    requires forall kind :: KindSum(costs, kind, value) == w(kind)
    ensures Sum(costs, value) == Total(KINDS, w)
  {
    KindsPartition(costs, value);
    FourKinds(w);
  }

  lemma MarkedIsLifted(costs: seq<CostLine>, s: Subtotals, markup: Markup)
    requires forall kind :: Of(s, kind) == KindSum(costs, kind, AmountOf())
    ensures IsProfited(Sum(costs, MarkedOf(markup)), LiftedTotal(s, markup), markup)
  {
    var lift := LiftOf(s, RowMultiplier(markup));
    KindsProfited(costs, s, markup);
    SumByKind(costs, MarkedOf(markup), Profited(lift, MultiplierOf(markup.rows, Profit)));
    ProfitedTotal(lift, markup);
  }

  lemma ProfitedTotal(lift: Kind -> real, markup: Markup)
    ensures IsProfited(Total(KINDS, Profited(lift, MultiplierOf(markup.rows, Profit))), Total(KINDS, lift), markup)
  {
    TotalProfited(KINDS, lift, MultiplierOf(markup.rows, Profit));
  }

  lemma KindsProfited(costs: seq<CostLine>, s: Subtotals, markup: Markup)
    requires forall kind :: Of(s, kind) == KindSum(costs, kind, AmountOf())
    ensures var w := Profited(LiftOf(s, RowMultiplier(markup)), MultiplierOf(markup.rows, Profit));
      forall kind :: KindSum(costs, kind, MarkedOf(markup)) == w(kind)
  {
    forall kind
      ensures KindSum(costs, kind, MarkedOf(markup)) == Profited(LiftOf(s, RowMultiplier(markup)), MultiplierOf(markup.rows, Profit))(kind)
    {
      KindMarked(costs, kind, markup);
      KindProfited(KindSum(costs, kind, MarkedOf(markup)), KindSum(costs, kind, AmountOf()), s, markup, kind);
    }
  }

  lemma KindProfited(marked: real, raw: real, s: Subtotals, markup: Markup, kind: Kind)
    requires Of(s, kind) == raw
    requires IsMarked(marked, raw, MultiplierOf(markup.rows, OfKind(kind)), MultiplierOf(markup.rows, Profit))
    ensures marked == Profited(LiftOf(s, RowMultiplier(markup)), MultiplierOf(markup.rows, Profit))(kind)
  {
    var lift, profit := LiftOf(s, RowMultiplier(markup)), MultiplierOf(markup.rows, Profit);
    var multiplier := RowMultiplier(markup)(kind);
    assert multiplier == MultiplierOf(markup.rows, OfKind(kind));
    MarkedIsProfited(marked, Of(s, kind), multiplier, profit, lift(kind), Profited(lift, profit)(kind));
  }

  lemma MarkedIsProfited(x: real, raw: real, multiplier: real, profit: real, lifted: real, profited: real)
    requires IsMarked(x, raw, multiplier, profit) && lifted == raw * multiplier && profited == lifted * profit
    ensures x == profited
  {
  }

  lemma FourKinds(value: Kind -> real)
    ensures Total(KINDS, value) == value(Material) + value(Labor) + value(Sub) + value(Freight)
  {
    assert KINDS[1..] == [Labor, Sub, Freight];
    assert [Labor, Sub, Freight][1..] == [Sub, Freight];
    assert [Sub, Freight][1..] == [Freight];
    assert [Freight][1..] == [];
    assert Total([Freight], value) == value(Freight);
    assert Total([Sub, Freight], value) == value(Sub) + value(Freight);
    assert Total([Labor, Sub, Freight], value) == value(Labor) + value(Sub) + value(Freight);
  }

  /** The facts about an explosion that its sums rest on. */
  ghost predicate Sound(e: Explosion, isDeduction: bool) {
    && (forall kind :: Of(e.byKind, kind) == KindSum(e.costs, kind, AmountOf()))
    && Faithful(e.byKind, e.markup)
    && |e.lines| == |e.costs|
    && AmountSum(e.lines) == Signed(isDeduction, Sum(e.costs, RoundedOf(e.markup)))
  }

  lemma ExplosionSound(args: Args, outside: Outside)
    requires Explode(args, outside).Ok?
    ensures Sound(Explode(args, outside).value, args.isDeduction)
  {
    var e := Explode(args, outside).value;
    var config := NormalizeConfig(args.profile);
    CostsAddUp(args, outside);
    AtLeastOne(args.profile);
    LinesSum(e.costs, e.markup, args, outside);
    MarkupFaithful(e.byKind, Multipliers(config), config.profitMargin > 0.0, ProfitFactor(config.profitMargin), e.markup);
  }

  /** The lines sum to the marked-up cost within half a cent a line, and to the stored total within
      half a cent more for every kind that has a cost (lifted by the profit) and for the profit row. */
  ghost predicate SumsClose(e: Explosion, isDeduction: bool) {
    && Abs(AmountSum(e.lines) - Signed(isDeduction, Sum(e.costs, MarkedOf(e.markup)))) <= 0.005 * |e.lines| as real
    && Abs(AmountSum(e.lines) - Signed(isDeduction, e.markup.total)) <= 0.005 * |e.lines| as real + Slack(HalfCents(e.byKind), e.markup)
  }

  lemma AmountsClose(
      amounts: real, rounded: real, marked: real, lines: nat, lifted: real, slack: real, markup: Markup, isDeduction: bool)
    requires amounts == Signed(isDeduction, rounded) && Abs(rounded - marked) <= 0.005 * lines as real
    requires IsProfited(marked, lifted, markup) && TotalWithin(markup, lifted, slack)
    ensures Abs(amounts - Signed(isDeduction, marked)) <= 0.005 * lines as real
    ensures Abs(amounts - Signed(isDeduction, markup.total)) <= 0.005 * lines as real + Slack(slack, markup)
  {
  }

  lemma SoundSumsClose(e: Explosion, isDeduction: bool)
    requires Sound(e, isDeduction)
    ensures SumsClose(e, isDeduction)
  {
    RoundingClose(e.costs, e.markup);
    MarkedIsLifted(e.costs, e.byKind, e.markup);
    AmountsClose(
      AmountSum(e.lines), Sum(e.costs, RoundedOf(e.markup)), Sum(e.costs, MarkedOf(e.markup)), |e.lines|,
      LiftedTotal(e.byKind, e.markup), HalfCents(e.byKind), e.markup, isDeduction);
  }

  lemma LinesSumToTotal(args: Args, outside: Outside)
    requires Explode(args, outside).Ok?
    ensures SumsClose(Explode(args, outside).value, args.isDeduction)
  {
    ExplosionSound(args, outside);
    SoundSumsClose(Explode(args, outside).value, args.isDeduction);
  }
}
