/** Line-by-line properties of an explosion: deductions cancel, excluded components leave no trace,
    rates stay close to amounts, and the lines need not sum to the stored total. */
module AssemblyLines {
  import opened Basics
  import opened Sorting
  import opened Assembly
  import opened AssemblyTotals
  import opened AssemblyExact

  // ---------- deductions ----------

  function AsDeduction(args: Args): Args {
    args.(isDeduction := true)
  }

  function AsAddition(args: Args): Args {
    args.(isDeduction := false)
  }

  /** The same line with its quantity and amount negated; the rate stays. */
  function Negated(line: Line): Line {
    line.(quantity := -line.quantity, amount := -line.amount)
  }

  predicate Cancels(added: seq<Line>, deducted: seq<Line>) {
    |added| == |deducted| && forall i :: 0 <= i < |added| ==> deducted[i] == Negated(added[i])
  }

  lemma {:induction false} CancelledSum(added: seq<Line>, deducted: seq<Line>)
    requires Cancels(added, deducted)
    ensures AmountSum(added) + AmountSum(deducted) == 0.0
  {
    if added != [] {
      CancelledSum(added[1..], deducted[1..]);
    }
  }

  lemma LineNegates(line: CostLine, markup: Markup, args: Args, outside: Outside)
    ensures LineOf(line, markup, AsDeduction(args), outside) == Negated(LineOf(line, markup, AsAddition(args), outside))
  {
  }

  lemma LinesCancel(costs: seq<CostLine>, markup: Markup, args: Args, outside: Outside)
    ensures Cancels(LinesOf(costs, Liner(markup, AsAddition(args), outside)), LinesOf(costs, Liner(markup, AsDeduction(args), outside)))
  {
    forall i | 0 <= i < |costs|
      ensures Liner(markup, AsDeduction(args), outside)(costs[i]) == Negated(Liner(markup, AsAddition(args), outside)(costs[i]))
    {
      LineNegates(costs[i], markup, args, outside);
    }
  }

  /** A measurement and the same measurement as a deduction fail alike; otherwise they have the same
      costs and totals, and their lines cancel one by one. */
  lemma DeductionCancels(args: Args, outside: Outside)
    ensures Explode(AsAddition(args), outside).Err? ==> Explode(AsDeduction(args), outside) == Explode(AsAddition(args), outside)
    ensures Explode(AsAddition(args), outside).Ok? ==>
      && Explode(AsDeduction(args), outside).Ok?
      && var added, deducted := Explode(AsAddition(args), outside).value, Explode(AsDeduction(args), outside).value;
         && deducted == added.(lines := deducted.lines)
         && Cancels(added.lines, deducted.lines)
         && AmountSum(added.lines) + AmountSum(deducted.lines) == 0.0
  {
    if Explode(AsAddition(args), outside).Ok? {
      var e := Explode(AsAddition(args), outside).value;
      LinesCancel(e.costs, e.markup, args, outside);
      CancelledSum(e.lines, Explode(AsDeduction(args), outside).value.lines);
    }
  }

  // ---------- excluded components ----------

  lemma {:induction false} IncludedSkips(before: seq<Component>, c: Component, after: seq<Component>, m: Measurement, outside: Outside)
    requires Include(c, m, outside) == Ok(false)
    ensures Included(before + [c] + after, m, outside) == Included(before + after, m, outside)
  {
    if before == [] {
      assert ([] + [c] + after)[1..] == after && [] + after == after;
      var rest := Included(after, m, outside);
      assert rest.Ok? ==> [] + rest.value == rest.value;
    } else {
      assert (before + [c] + after)[1..] == before[1..] + [c] + after;
      assert (before + after)[1..] == before[1..] + after;
      IncludedSkips(before[1..], c, after, m, outside);
    }
  }

  function WithComponents(args: Args, components: seq<Component>): Args {
    args.(assembly := args.assembly.(components := components))
  }

  lemma SameWhenIncludedAgree(args: Args, components: seq<Component>, outside: Outside)
    requires Included(components, args.measurement, outside) == Included(args.assembly.components, args.measurement, outside)
    ensures Explode(WithComponents(args, components), outside) == Explode(args, outside)
  {
    var included := Included(components, args.measurement, outside);
    if included.Ok? {
      var overrides := Resolved(included.value, args.measurement, outside, map[]);
      if overrides.Ok? {
        var costs := CostLines(SortBy(included.value, SortOrder()), args.assembly.header.id,
            Pricer(args.measurement.quantity, overrides.value));
        var markup := ApplyMarkup(ByKind(costs, NOTHING), args.profile);
        SameLines(costs, markup, args, WithComponents(args, components), outside);
      }
    }
  }

  lemma SameLines(costs: seq<CostLine>, markup: Markup, args: Args, others: Args, outside: Outside)
    requires others == WithComponents(args, others.assembly.components)
    ensures LinesOf(costs, Liner(markup, others, outside)) == LinesOf(costs, Liner(markup, args, outside))
  {
    forall i | 0 <= i < |costs|
      ensures Liner(markup, others, outside)(costs[i]) == Liner(markup, args, outside)(costs[i])
    {
    }
  }

  /** A component whose condition is false could as well be deleted from the recipe. */
  lemma ExcludedIsDeleted(args: Args, i: nat, outside: Outside)
    requires i < |args.assembly.components|
    requires Include(args.assembly.components[i], args.measurement, outside) == Ok(false)
    ensures var components := args.assembly.components;
      Explode(WithComponents(args, components[..i] + components[i + 1..]), outside) == Explode(args, outside)
  {
    var components := args.assembly.components;
    assert components == components[..i] + [components[i]] + components[i + 1..];
    IncludedSkips(components[..i], components[i], components[i + 1..], args.measurement, outside);
    SameWhenIncludedAgree(args, components[..i] + components[i + 1..], outside);
  }

  lemma {:induction false} IncludedAgain(components: seq<Component>, m: Measurement, outside: Outside)
    requires Included(components, m, outside).Ok?
    ensures var kept := Included(components, m, outside).value; Included(kept, m, outside) == Ok(kept)
  {
    if components != [] {
      IncludedAgain(components[1..], m, outside);
      var rest := Included(components[1..], m, outside).value;
      var kept := Included(components, m, outside).value;
      if Include(components[0], m, outside).value {
        assert kept == [components[0]] + rest && kept[1..] == rest;
      } else {
        assert kept == rest;
      }
    }
  }

  /** Only the included components matter, even to a formula that would have failed. */
  lemma OnlyIncludedMatter(args: Args, outside: Outside)
    requires Included(args.assembly.components, args.measurement, outside).Ok?
    ensures var kept := Included(args.assembly.components, args.measurement, outside).value;
      Explode(WithComponents(args, kept), outside) == Explode(args, outside)
  {
    IncludedAgain(args.assembly.components, args.measurement, outside);
    SameWhenIncludedAgree(args, Included(args.assembly.components, args.measurement, outside).value, outside);
  }

  // ---------- rates ----------

  predicate Within(x: real, y: real, bound: real) {
    -bound <= x - y <= bound
  }

  lemma ProductClose(x: real, y: real, bound: real, factor: real)
    requires Within(x, y, bound)
    ensures Within(x * factor, y * factor, bound * Abs(factor))
  {
    assert (x - y) * factor == x * factor - y * factor;
    if factor >= 0.0 {
      assert -bound * factor <= (x - y) * factor <= bound * factor;
    } else {
      assert bound * factor <= (x - y) * factor <= -bound * factor;
    }
  }

  lemma Triangle(a: real, b: real, c: real, d: real, ab: real, bc: real, cd: real)
    requires Within(a, b, ab) && Within(c, b, bc) && Within(d, c, cd)
    ensures Within(a, d, cd + ab + bc)
  {
  }

  lemma Reassociate(a: real, b: real, c: real)
    ensures a * b * c == c * a * b
    ensures a * b * c == a * (b * c)
  {
  }

  /** Rate times quantity is the stored amount up to half a cent, and half a ten-thousandth for each
      unit of quantity and of markup. */
  predicate RateMatches(rate: real, quantity: real, amount: real, lift: real) {
    Within(rate * quantity, amount, 0.005 + 0.00005 * Abs(quantity) + 0.00005 * Abs(lift))
  }

  lemma RateArithmetic(rate: real, cost: real, lift: real, quantity: real, amount: real, stored: real)
    requires Within(rate, cost * lift, 0.00005) && Within(amount, quantity * cost, 0.00005) && Within(stored, amount * lift, 0.005)
    ensures RateMatches(rate, quantity, stored, lift)
  {
    Reassociate(cost, lift, quantity);
    FirstGap(rate, cost * lift, quantity, cost * lift * quantity);
    SecondGap(amount, quantity * cost, lift, cost * lift * quantity, amount * lift);
    Triangle(rate * quantity, cost * lift * quantity, amount * lift, stored, 0.00005 * Abs(quantity), 0.00005 * Abs(lift), 0.005);
  }

  lemma FirstGap(rate: real, exact: real, quantity: real, middle: real)
    requires Within(rate, exact, 0.00005) && middle == exact * quantity
    ensures Within(rate * quantity, middle, 0.00005 * Abs(quantity))
  {
    ProductClose(rate, exact, 0.00005, quantity);
  }

  lemma SecondGap(amount: real, exact: real, lift: real, middle: real, marked: real)
    requires Within(amount, exact, 0.00005) && middle == exact * lift && marked == amount * lift
    ensures Within(marked, middle, 0.00005 * Abs(lift))
  {
    ProductClose(amount, exact, 0.00005, lift);
  }

  lemma RoundingsClose(x: real, y: real, z: real)
    ensures Within(Round4(x), x, 0.00005) && Within(Round4(y), y, 0.00005) && Within(Round2(z), z, 0.005)
  {
    Round4Close(x);
    Round4Close(y);
    Round2Close(z);
  }

  lemma BakedClose(unitCost: real, quantity: real, k: real, p: real, lift: real, rate: real, amount: real, marked: real)
    requires lift == k * p && rate == BakedRate(unitCost, k, p)
    requires amount == Extended(quantity, unitCost) && marked == amount * k * p
    ensures RateMatches(rate, quantity, Round2(marked), lift)
  {
    RoundingsClose(unitCost * k * p, quantity * unitCost, marked);
    Reassociate(unitCost, k, p);
    Reassociate(amount, k, p);
    SameLift(unitCost, k, p, lift);
    SameLift(amount, k, p, lift);
    RateArithmetic(rate, unitCost, lift, quantity, amount, Round2(marked));
  }

  lemma SameLift(x: real, k: real, p: real, lift: real)
    requires lift == k * p
    ensures x * k * p == x * lift
  {
  }

  function LiftOn(line: CostLine, markup: Markup): real {
    MultiplierOf(markup.rows, OfKind(line.kind)) * MultiplierOf(markup.rows, Profit)
  }

  lemma SignedRate(isDeduction: bool, rate: real, quantity: real, amount: real, lift: real)
    requires RateMatches(rate, quantity, amount, lift)
    ensures RateMatches(rate, Signed(isDeduction, quantity), Signed(isDeduction, amount), lift)
  {
    assert rate * -quantity == -(rate * quantity);
  }

  lemma LineRate(line: CostLine, markup: Markup, k: real, p: real, isDeduction: bool)
    requires line.amount == Extended(line.quantity, line.unitCost)
    requires k == MultiplierOf(markup.rows, OfKind(line.kind)) && p == MultiplierOf(markup.rows, Profit)
    ensures RateMatches(
      BakedRate(line.unitCost, k, p), Signed(isDeduction, line.quantity), Signed(isDeduction, Round2(Marked(line, markup))),
      LiftOn(line, markup))
  {
    var marked, rate := Marked(line, markup), BakedRate(line.unitCost, k, p);
    BakedClose(line.unitCost, line.quantity, k, p, LiftOn(line, markup), rate, line.amount, marked);
    SignedRate(isDeduction, rate, line.quantity, Round2(marked), LiftOn(line, markup));
  }

  predicate Priced(costs: seq<CostLine>) {
    forall i :: 0 <= i < |costs| ==> costs[i].amount == Extended(costs[i].quantity, costs[i].unitCost)
  }

  lemma {:induction false} CostLinesPriced(components: seq<Component>, assemblyId: string, price: Component -> CostLine)
    requires forall c :: price(c).amount == Extended(price(c).quantity, price(c).unitCost)
    ensures Priced(CostLines(components, assemblyId, price))
  {
    if components != [] {
      CostLinesPriced(components[1..], assemblyId, price);
    }
  }

  lemma RatesMatchAmounts(args: Args, outside: Outside, i: nat)
    requires Explode(args, outside).Ok? && i < |Explode(args, outside).value.lines|
    ensures var e := Explode(args, outside).value;
      RateMatches(e.lines[i].rate, e.lines[i].quantity, e.lines[i].amount, LiftOn(e.costs[i], e.markup))
  {
    var e := Explode(args, outside).value;
    ExplodedPriced(args, outside);
    var cost := e.costs[i];
    LineRate(cost, e.markup, MultiplierOf(e.markup.rows, OfKind(cost.kind)), MultiplierOf(e.markup.rows, Profit), args.isDeduction);
  }

  lemma ExplodedPriced(args: Args, outside: Outside)
    requires Explode(args, outside).Ok?
    ensures Priced(Explode(args, outside).value.costs)
  {
    var included := Included(args.assembly.components, args.measurement, outside).value;
    var overrides := Resolved(included, args.measurement, outside, map[]).value;
    CostLinesPriced(SortBy(included, SortOrder()), args.assembly.header.id, Pricer(args.measurement.quantity, overrides));
  }

  /** When the baked rate times the quantity is the stored amount: the product is whole cents, and the
      marked-up amount lies in the half-cent window around it. */
  predicate RateHits(unitCost: real, quantity: real, kindLift: real, profit: real) {
    var product := BakedRate(unitCost, kindLift, profit) * quantity;
    Cents(product) && HalfCentWindow(Lifted(Extended(quantity, unitCost), kindLift, profit) - product)
  }

  lemma BakedExactly(unitCost: real, quantity: real, kindLift: real, profit: real)
    ensures BakedRate(unitCost, kindLift, profit) * quantity == Round2(Lifted(Extended(quantity, unitCost), kindLift, profit))
      <==> RateHits(unitCost, quantity, kindLift, profit)
  {
    Round2Iff(Lifted(Extended(quantity, unitCost), kindLift, profit), BakedRate(unitCost, kindLift, profit) * quantity);
  }

  lemma SignedExactly(isDeduction: bool, rate: real, quantity: real, amount: real)
    ensures rate * Signed(isDeduction, quantity) == Signed(isDeduction, amount) <==> rate * quantity == amount
  {
    assert rate * -quantity == -(rate * quantity);
  }

  predicate RateIsAmount(line: Line) {
    line.rate * line.quantity == line.amount
  }

  lemma LineExactly(line: CostLine, kindLift: real, profit: real, isDeduction: bool, stored: Line)
    requires line.amount == Extended(line.quantity, line.unitCost)
    requires stored.rate == BakedRate(line.unitCost, kindLift, profit) && stored.quantity == Signed(isDeduction, line.quantity)
    requires stored.amount == Signed(isDeduction, Round2(Lifted(line.amount, kindLift, profit)))
    ensures RateIsAmount(stored) <==> RateHits(line.unitCost, line.quantity, kindLift, profit)
  {
    BakedExactly(line.unitCost, line.quantity, kindLift, profit);
    SignedExactly(isDeduction, stored.rate, line.quantity, Round2(Lifted(line.amount, kindLift, profit)));
  }

  /** Rate times quantity is the stored amount of a line exactly when its unit cost, quantity and
      multipliers satisfy `RateHits`. */
  lemma RatesMatchExactly(args: Args, outside: Outside, i: nat)
    requires Explode(args, outside).Ok? && i < |CostsOf(args, outside)|
    ensures var e, cost := Explode(args, outside).value, CostsOf(args, outside)[i];
      i < |e.lines|
      && (RateIsAmount(e.lines[i])
          <==> RateHits(cost.unitCost, cost.quantity, LiftFor(args, outside)(cost.kind), ProfitFor(args, outside)))
  {
    KnownBefore(args, outside);
    var e := Explode(args, outside).value;
    ExplodedPriced(args, outside);
    ExplosionReads(args, outside);
    assert RowMultiplier(e.markup)(e.costs[i].kind) == LiftFor(args, outside)(e.costs[i].kind);
    LineExactly(e.costs[i], LiftFor(args, outside)(e.costs[i].kind), ProfitFor(args, outside), args.isDeduction, e.lines[i]);
  }

  // ---------- the lines need not sum to the total ----------

  function Hour(id: string): Component {
    Component(id, "A", Labor, "Hour", 1.0, "hr", 0.11, 0.0, 0, "", map[], "")
  }

  const NO_DRIVERS := Drivers(None, None, None, None, None)

  /** Two labour lines of eleven cents each, for one unit, with the default markups. */
  function TwoHours(): Args {
    Args(Loaded(Header("A", "S", "Two hours", "hr"), [Hour("1"), Hour("2")]), Measurement(1.0, "hr", NO_DRIVERS), false, None, "S",
      RawConfig(None, None, None, None, None))
  }

  lemma HourCost(id: string)
    ensures CostOf(Hour(id), 1.0, map[]) == CostLine(id, Labor, "Hour", "hr", 1.0, 0.11, 0.11)
  {
    WholeFloor(10000, 1.0 * 10000.0);
    Round4Fixed(1.0);
    WholeFloor(1100, 0.11 * 10000.0);
    Round4Fixed(0.11);
  }

  lemma TwoHoursIncluded(outside: Outside)
    ensures var m, components := TwoHours().measurement, TwoHours().assembly.components;
      && Included(components, m, outside) == Ok(components)
      && Resolved(components, m, outside, map[]) == Ok(map[])
      && SortBy(components, SortOrder()) == components
  {
    var m, components := TwoHours().measurement, TwoHours().assembly.components;
    assert components[1..] == [Hour("2")] && [Hour("2")][1..] == [];
    assert Include(Hour("1"), m, outside) == Include(Hour("2"), m, outside) == Ok(true);
    assert Included([], m, outside) == Ok([]);
    assert [Hour("2")] + [] == [Hour("2")] && [Hour("1")] + [Hour("2")] == components;
    assert Included([Hour("2")], m, outside) == Ok([Hour("2")]);
    assert Resolved([Hour("2")], m, outside, map[]) == Ok(map[]);
    assert SortBy([Hour("2")], SortOrder()) == [Hour("2")];
  }

  lemma TwoHoursLines(price: Component -> CostLine)
    ensures CostLines([Hour("1"), Hour("2")], "A", price) == [price(Hour("1")), price(Hour("2"))]
  {
    assert [Hour("1"), Hour("2")][1..] == [Hour("2")] && [Hour("2")][1..] == [];
    assert CostLines([Hour("2")], "A", price) == [price(Hour("2"))];
  }

  lemma TwoHoursCosts(outside: Outside)
    ensures Explode(TwoHours(), outside).Ok?
    ensures Explode(TwoHours(), outside).value.costs
      == [CostLine("1", Labor, "Hour", "hr", 1.0, 0.11, 0.11), CostLine("2", Labor, "Hour", "hr", 1.0, 0.11, 0.11)]
  {
    TwoHoursIncluded(outside);
    TwoHoursLines(Pricer(1.0, map[]));
    HourCost("1");
    HourCost("2");
  }

  /** The stored line totals sum to 26 cents, the marked-up total is 25. */
  lemma LinesNeedNotSumToTotal(outside: Outside)
    ensures Explode(TwoHours(), outside).Ok?
    ensures var e := Explode(TwoHours(), outside).value; AmountSum(e.lines) == 0.26 && e.markup.total == 0.25
  {
    TwoHoursCosts(outside);
    var e := Explode(TwoHours(), outside).value;
    TwoHoursMarkup(e.byKind, e.costs);
    TwoHoursSum(e.costs, e.markup, outside);
  }

  lemma TwoHoursMarkup(s: Subtotals, costs: seq<CostLine>)
    requires costs == [CostLine("1", Labor, "Hour", "hr", 1.0, 0.11, 0.11), CostLine("2", Labor, "Hour", "hr", 1.0, 0.11, 0.11)]
    requires s == ByKind(costs, NOTHING)
    ensures var markup := ApplyMarkup(s, TwoHours().profile);
      markup.total == 0.25 && MultiplierOf(markup.rows, OfKind(Labor)) == 1.15 && MultiplierOf(markup.rows, Profit) == 1.0
  {
    var config := NormalizeConfig(TwoHours().profile);
    WholeFloor(1100, 0.11 * 10000.0);
    WholeFloor(2200, 0.22 * 10000.0);
    Round4Fixed(0.11);
    Round4Fixed(0.22);
    assert costs[1..] == [costs[1]] && costs[1..][1..] == [];
    assert Added(NOTHING, Labor, 0.11) == Subtotals(0.0, 0.11, 0.0, 0.0);
    assert Added(Subtotals(0.0, 0.11, 0.0, 0.0), Labor, 0.11) == Subtotals(0.0, 0.22, 0.0, 0.0);
    assert s == ByKind([costs[1]], Subtotals(0.0, 0.11, 0.0, 0.0)) == ByKind([], Subtotals(0.0, 0.22, 0.0, 0.0));
    assert s == Subtotals(0.0, 0.22, 0.0, 0.0);
    WholeFloor(11500, 1.15 * 10000.0);
    Round4Fixed(1.15);
    LabourOnly(s, Multipliers(config));
    var rows := [MarkupRow(OfKind(Labor), 1.15, 0.22, 0.25)];
    assert rows[1..] == [] && rows[..0] == [];
    WholeFloor(25, 0.25 * 100.0);
    Round2Fixed(0.25);
    assert RunningTotal(rows, 0.0) == RunningTotal([], 0.25) == 0.25;
  }

  lemma LabourOnly(s: Subtotals, m: Kind -> real)
    requires s == Subtotals(0.0, 0.22, 0.0, 0.0) && m(Labor) == 1.15
    ensures KindRows(KINDS, RowOf(s, m)) == [MarkupRow(OfKind(Labor), 1.15, 0.22, 0.25)]
  {
    var rowOf := RowOf(s, m);
    assert KINDS[1..] == [Labor, Sub, Freight];
    assert [Labor, Sub, Freight][1..] == [Sub, Freight];
    assert [Sub, Freight][1..] == [Freight];
    assert KindRows([Freight], rowOf) == [];
    assert KindRows([Sub, Freight], rowOf) == [];
    WholeFloor(22, 0.22 * 100.0);
    Round2Fixed(0.22);
    assert MarkedUp(0.22, 1.15) == 0.25;
  }

  lemma TwoHoursSum(costs: seq<CostLine>, markup: Markup, outside: Outside)
    requires costs == [CostLine("1", Labor, "Hour", "hr", 1.0, 0.11, 0.11), CostLine("2", Labor, "Hour", "hr", 1.0, 0.11, 0.11)]
    requires MultiplierOf(markup.rows, OfKind(Labor)) == 1.15 && MultiplierOf(markup.rows, Profit) == 1.0
    ensures AmountSum(LinesOf(costs, Liner(markup, TwoHours(), outside))) == 0.26
  {
    LinesSum(costs, markup, TwoHours(), outside);
    assert costs[1..] == [costs[1]] && costs[1..][1..] == [];
    assert Round2(0.1265) == 0.13;
    assert Marked(costs[0], markup) == 0.1265 == Marked(costs[1], markup);
    assert Sum([costs[1]], RoundedOf(markup)) == 0.13 + Sum([], RoundedOf(markup)) == 0.13;
    assert Sum(costs, RoundedOf(markup)) == 0.26;
  }

  /** An hour of eleven cents with the default burden: a rate of 0.1265 for one hour, an amount of 0.13. */
  lemma RateNeedNotMatch(outside: Outside)
    ensures Explode(TwoHours(), outside).Ok? && |Explode(TwoHours(), outside).value.lines| == 2
    ensures var line := Explode(TwoHours(), outside).value.lines[0];
      line.rate == 0.1265 && line.quantity == 1.0 && line.amount == 0.13 && !RateIsAmount(line)
  {
    TwoHoursCosts(outside);
    var e := Explode(TwoHours(), outside).value;
    TwoHoursMarkup(e.byKind, e.costs);
    HourRate();
    assert e.lines[0] == LineOf(e.costs[0], e.markup, TwoHours(), outside);
  }

  lemma HourRate()
    ensures BakedRate(0.11, 1.15, 1.0) == 0.1265 && Round2(Lifted(0.11, 1.15, 1.0)) == 0.13
  {
    WholeFloor(1265, 0.1265 * 10000.0);
    Round4Fixed(0.1265);
    assert Lifted(0.11, 1.15, 1.0) == 0.1265;
  }

  // ---------- with profit a single line can miss the total ----------

  /** One subcontracted line of ten cents, a quarter of markup and half of the revenue as profit. */
  function OneVisit(): Args {
    Args(Loaded(Header("A", "S", "One visit", "ea"), [Visit()]), Measurement(1.0, "ea", NO_DRIVERS), false, None, "S",
      RawConfig(None, None, Some(25.0), None, Some(50.0)))
  }

  function Visit(): Component {
    Component("1", "A", Sub, "Visit", 1.0, "ea", 0.1, 0.0, 0, "", map[], "")
  }

  const VISIT_COST := CostLine("1", Sub, "Visit", "ea", 1.0, 0.1, 0.1)
  const VISIT_SUBTOTALS := Subtotals(0.0, 0.0, 0.1, 0.0)

  lemma OneVisitCosts(outside: Outside)
    ensures Explode(OneVisit(), outside).Ok?
    ensures Explode(OneVisit(), outside).value.costs == [VISIT_COST]
    ensures Explode(OneVisit(), outside).value.byKind == VISIT_SUBTOTALS
  {
    var m, components := OneVisit().measurement, [Visit()];
    assert components[1..] == [];
    assert Include(Visit(), m, outside) == Ok(true);
    assert Included([], m, outside) == Ok([]) && [Visit()] + [] == components;
    assert Included(components, m, outside) == Ok(components);
    assert Resolved(components, m, outside, map[]) == Ok(map[]);
    assert SortBy(components, SortOrder()) == components;
    VisitCost();
    assert CostLines(components, "A", Pricer(1.0, map[])) == [VISIT_COST];
    assert [VISIT_COST][1..] == [];
    assert Added(NOTHING, Sub, 0.1) == VISIT_SUBTOTALS;
    assert ByKind([VISIT_COST], NOTHING) == ByKind([], VISIT_SUBTOTALS) == VISIT_SUBTOTALS;
  }

  lemma VisitCost()
    ensures CostOf(Visit(), 1.0, map[]) == VISIT_COST && Round4(0.1) == 0.1
  {
    WholeFloor(10000, 1.0 * 10000.0);
    Round4Fixed(1.0);
    WholeFloor(1000, 0.1 * 10000.0);
    Round4Fixed(0.1);
  }

  lemma VisitLifts(config: MarkupConfig)
    requires config.subMarkup == 25.0 && config.profitMargin == 50.0
    ensures KindLift(VISIT_SUBTOTALS, config)(Sub) == 1.25
    ensures SubtotalCents(VISIT_SUBTOTALS, config) == 0.13 && ProfitLift(VISIT_SUBTOTALS, config) == 2.0
  {
    var lift := KindLift(VISIT_SUBTOTALS, config);
    assert Percent(config, Sub) == 25.0 && Of(VISIT_SUBTOTALS, Sub) == 0.1;
    assert 1.0 + Percent(config, Sub) / 100.0 == 1.25;
    assert 1.0 / (1.0 - Min(config.profitMargin, 99.0) / 100.0) == 2.0;
    WholeFloor(12500, 1.25 * 10000.0);
    Round4Fixed(1.25);
    WholeFloor(20000, 2.0 * 10000.0);
    Round4Fixed(2.0);
    assert Multipliers(config)(Sub) == 1.25;
    assert lift(Sub) == 1.25;
    FourKinds(CentsOf(VISIT_SUBTOTALS, lift));
    LiftClose(0.0, lift(Material));
    LiftClose(0.0, lift(Labor));
    LiftClose(0.0, lift(Freight));
    assert MarkedUp(0.1, 1.25) == 0.13;
  }

  /** The single line is stored as 25 cents, the marked-up total as 26: the total rounds before the
      profit and after it, the line only after it. */
  lemma ProfitRoundsTwice(outside: Outside)
    ensures Explode(OneVisit(), outside).Ok? && |Explode(OneVisit(), outside).value.lines| == 1
    ensures var e := Explode(OneVisit(), outside).value; AmountSum(e.lines) == 0.25 && e.markup.total == 0.26
  {
    OneVisitCosts(outside);
    var e, config := Explode(OneVisit(), outside).value, NormalizeConfig(OneVisit().profile);
    ExplosionReads(OneVisit(), outside);
    VisitLifts(config);
    assert RowMultiplier(e.markup)(Sub) == 1.25;
    VisitLine(e.markup);
    LinesSum(e.costs, e.markup, OneVisit(), outside);
  }

  /** Both explosions drift out of the half-cent window. */
  lemma BothDriftOut(outside: Outside)
    ensures Explode(TwoHours(), outside).Ok? && !HalfCentWindow(DriftBefore(TwoHours(), outside))
    ensures Explode(OneVisit(), outside).Ok? && !HalfCentWindow(DriftBefore(OneVisit(), outside))
  {
    LinesNeedNotSumToTotal(outside);
    LinesSumExactly(TwoHours(), outside);
    ProfitRoundsTwice(outside);
    LinesSumExactly(OneVisit(), outside);
  }

  lemma VisitLine(markup: Markup)
    requires MultiplierOf(markup.rows, OfKind(Sub)) == 1.25 && MultiplierOf(markup.rows, Profit) == 2.0
    ensures Sum([VISIT_COST], RoundedOf(markup)) == 0.25 && MarkedUp(0.13, 2.0) == 0.26
  {
    assert [VISIT_COST][1..] == [];
    WholeFloor(25, 0.25 * 100.0);
    Round2Fixed(0.25);
    WholeFloor(26, 0.26 * 100.0);
    Round2Fixed(0.26);
    assert Marked(VISIT_COST, markup) == 0.25;
  }
}
