/** The assembly explosion: the recipe arithmetic of packages/domain/src/assembly.ts and markup.ts,
    and the estimate lines that apps/api/src/assembly-explode.ts makes of them. */
module Assembly {
  import opened Basics
  import opened Sorting

  datatype Kind = Material | Labor | Sub | Freight

  const KINDS := [Material, Labor, Sub, Freight]

  datatype Value = Number(n: real) | Text(s: string)

  type Context = map<string, Value>

  datatype Component = Component(
    id: string, assemblyId: string, kind: Kind, name: string, quantityPerUnit: real, unit: string, unitCost: real,
    wastePct: real, sortOrder: int, quantityFormula: string, formulaVars: Context, includeWhen: string)

  datatype Header = Header(id: string, serviceItemCode: string, name: string, unit: string)

  datatype Loaded = Loaded(header: Header, components: seq<Component>)

  datatype Drivers = Drivers(
    height: Option<real>, width: Option<real>, thickness: Option<real>, perimeter: Option<real>, sides: Option<real>)

  /** The formula sandbox and the unit tables; `None` is a failed evaluation. */
  datatype Outside = Outside(
    evalBoolean: (string, Context) -> Option<bool>, evalNumber: (string, Context) -> Option<real>,
    unitWarning: (string, string) -> Option<string>)

  datatype Measurement = Measurement(quantity: real, unit: string, drivers: Drivers)

  datatype Error = BadFormula(component: string) | BadQuantity

  // ---------- rounding ----------

  /** `Math.round(n * 100) / 100`: halves go up. */
  function Round2(n: real): real {
    (n * 100.0 + 0.5).Floor as real / 100.0
  }

  function Round4(n: real): real {
    (n * 10000.0 + 0.5).Floor as real / 10000.0
  }

  // ---------- formulas ----------

  /** Missing drivers count as zero; a component's own variables may shadow a driver. */
  function FormulaContext(c: Component, m: Measurement): Context {
    map["measurement_quantity" := Number(m.quantity), "measurement_unit" := Text(m.unit),
        "height" := Number(m.drivers.height.GetOr(0.0)), "width" := Number(m.drivers.width.GetOr(0.0)),
        "thickness" := Number(m.drivers.thickness.GetOr(0.0)), "perimeter" := Number(m.drivers.perimeter.GetOr(0.0)),
        "sides" := Number(m.drivers.sides.GetOr(0.0))]
    + c.formulaVars
  }

  function Include(c: Component, m: Measurement, outside: Outside): Result<bool, Error> {
    if c.includeWhen == "" || Trim(c.includeWhen) == "" then Ok(true)
    else
      var result := outside.evalBoolean(c.includeWhen, FormulaContext(c, m));
      if result.None? then Err(BadFormula(c.name)) else Ok(result.value)
  }

  /** The components that stay, or the first expression that fails. */
  function Included(components: seq<Component>, m: Measurement, outside: Outside): Result<seq<Component>, Error> {
    if components == [] then Ok([])
    else
      var first := Include(components[0], m, outside);
      if first.Err? then Err(first.error)
      else
        var rest := Included(components[1..], m, outside);
        if rest.Err? then rest else Ok((if first.value then [components[0]] else []) + rest.value)
  }

  /** The quantity overrides of the included components with a formula; a later component with the
      same id wins. */
  function Resolved(components: seq<Component>, m: Measurement, outside: Outside, sofar: map<string,
      real>): Result<map<string, real>, Error> {
    if components == [] then Ok(sofar)
    else
      var c := components[0];
      var kept := Include(c, m, outside);
      if kept.Err? then Err(kept.error)
      else if !kept.value || c.quantityFormula == "" then Resolved(components[1..], m, outside, sofar)
      else
        var result := outside.evalNumber(c.quantityFormula, FormulaContext(c, m));
        if result.None? then Err(BadFormula(c.name))
        else Resolved(components[1..], m, outside, sofar[c.id := result.value])
  }

  // ---------- costs ----------

  datatype CostLine = CostLine(componentId: string, kind: Kind, name: string, unit: string, quantity: real, unitCost: real, amount: real)

  datatype Subtotals = Subtotals(material: real, labor: real, sub: real, freight: real)

  function Of(s: Subtotals, kind: Kind): real {
    match kind
    case Material => s.material
    case Labor => s.labor
    case Sub => s.sub
    case Freight => s.freight
  }

  function Added(s: Subtotals, kind: Kind, amount: real): Subtotals {
    match kind
    case Material => s.(material := Round4(s.material + amount))
    case Labor => s.(labor := Round4(s.labor + amount))
    case Sub => s.(sub := Round4(s.sub + amount))
    case Freight => s.(freight := Round4(s.freight + amount))
  }

  /** The cost of a quantity, as stored. */
  function Extended(quantity: real, unitCost: real): real {
    Round4(quantity * unitCost)
  }

  function CostOf(c: Component, quantity: real, overrides: map<string, real>): CostLine {
    var perUnit := if c.id in overrides then overrides[c.id] else c.quantityPerUnit;
    var resolved := Round4(quantity * perUnit * (1.0 + c.wastePct / 100.0));
    CostLine(c.id, c.kind, c.name, c.unit, resolved, c.unitCost, Extended(resolved, c.unitCost))
  }

  /** The cost of a component for one measurement, as a function of the component. */
  function Pricer(quantity: real, overrides: map<string, real>): Component -> CostLine {
    (c: Component) => CostOf(c, quantity, overrides)
  }

  function SortOrder(): Component -> int {
    (c: Component) => c.sortOrder
  }

  /** One line per component that belongs to the assembly, in sort order. */
  function CostLines(components: seq<Component>, assemblyId: string, price: Component -> CostLine): seq<CostLine> {
    if components == [] then []
    else
      (if components[0].assemblyId != assemblyId then [] else [price(components[0])])
      + CostLines(components[1..], assemblyId, price)
  }

  function ByKind(lines: seq<CostLine>, sofar: Subtotals): Subtotals {
    if lines == [] then sofar else ByKind(lines[1..], Added(sofar, lines[0].kind, lines[0].amount))
  }

  function TotalOf(lines: seq<CostLine>, sofar: real): real {
    if lines == [] then sofar else TotalOf(lines[1..], Round4(sofar + lines[0].amount))
  }

  const NOTHING := Subtotals(0.0, 0.0, 0.0, 0.0)

  // ---------- markup ----------

  datatype MarkupConfig = MarkupConfig(materialWaste: real, laborBurden: real, subMarkup: real, freightMarkup: real, profitMargin: real)

  const DEFAULT_MARKUP := MarkupConfig(10.0, 15.0, 8.0, 5.0, 0.0)

  /** The profile's markup fields as numbers; `None` is anything that is not a finite number. */
  datatype RawConfig = RawConfig(
    materialWaste: Option<real>, laborBurden: Option<real>, subMarkup: Option<real>, freightMarkup: Option<real>,
        profitMargin: Option<real>)

  function Accepted(raw: Option<real>, default: real): real {
    if raw.None? || raw.value < 0.0 || raw.value > 1000.0 then default else raw.value
  }

  function NormalizeConfig(raw: RawConfig): MarkupConfig {
    MarkupConfig(
      Accepted(raw.materialWaste, DEFAULT_MARKUP.materialWaste), Accepted(raw.laborBurden, DEFAULT_MARKUP.laborBurden),
      Accepted(raw.subMarkup, DEFAULT_MARKUP.subMarkup), Accepted(raw.freightMarkup, DEFAULT_MARKUP.freightMarkup),
      Accepted(raw.profitMargin, DEFAULT_MARKUP.profitMargin))
  }

  function Percent(config: MarkupConfig, kind: Kind): real {
    match kind
    case Material => config.materialWaste
    case Labor => config.laborBurden
    case Sub => config.subMarkup
    case Freight => config.freightMarkup
  }

  datatype Basis = OfKind(kind: Kind) | Profit

  datatype MarkupRow = MarkupRow(basis: Basis, multiplier: real, before: real, after: real)

  datatype Markup = Markup(rows: seq<MarkupRow>, subtotalBeforeProfit: real, total: real)

  /** The multiplier of each kind, as a function of the kind. */
  function Multipliers(config: MarkupConfig): Kind -> real {
    (kind: Kind) => Round4(1.0 + Percent(config, kind) / 100.0)
  }

  function MarkedUp(raw: real, multiplier: real): real {
    Round2(raw * multiplier)
  }

  /** The row of a kind, as a function of the kind; a kind without a subtotal has none. */
  function RowOf(s: Subtotals, multiplier: Kind -> real): Kind -> seq<MarkupRow> {
    (kind: Kind) =>
      if Of(s, kind) == 0.0 then []
      else [MarkupRow(OfKind(kind), multiplier(kind), Round2(Of(s, kind)), MarkedUp(Of(s, kind), multiplier(kind)))]
  }

  function KindRows(kinds: seq<Kind>, rowOf: Kind -> seq<MarkupRow>): seq<MarkupRow> {
    if kinds == [] then [] else rowOf(kinds[0]) + KindRows(kinds[1..], rowOf)
  }

  function RunningTotal(rows: seq<MarkupRow>, sofar: real): real {
    if rows == [] then sofar else RunningTotal(rows[1..], Round2(sofar + rows[0].after))
  }

  function ProfitFactor(margin: real): real {
    Round4(1.0 / (1.0 - Min(margin, 99.0) / 100.0))
  }

  function WithProfit(rows: seq<MarkupRow>, subtotal: real, wanted: bool, multiplier: real): Markup {
    if wanted && subtotal > 0.0 then
      var after := Round2(subtotal * multiplier);
      Markup(rows + [MarkupRow(Profit, multiplier, subtotal, after)], Round2(subtotal), Round2(after))
    else Markup(rows, Round2(subtotal), Round2(subtotal))
  }

  function ApplyMarkup(s: Subtotals, raw: RawConfig): Markup {
    var config := NormalizeConfig(raw);
    var rows := KindRows(KINDS, RowOf(s, Multipliers(config)));
    WithProfit(rows, RunningTotal(rows, 0.0), config.profitMargin > 0.0, ProfitFactor(config.profitMargin))
  }

  // ---------- estimate lines ----------

  datatype Line = Line(
    serviceItemCode: string, quantity: real, unit: string, rate: real, amount: real, divisionCode: Option<string>,
    assemblyId: string, componentId: string, kind: Kind, unitWarning: Option<string>)

  datatype Args = Args(
    assembly: Loaded, measurement: Measurement, isDeduction: bool, divisionCode: Option<string>,
    fallbackServiceItemCode: string, profile: RawConfig)

  datatype Explosion = Explosion(costs: seq<CostLine>, byKind: Subtotals, total: real, markup: Markup, lines: seq<Line>)

  /** The multiplier of the last row with this basis; 1 without one. */
  function MultiplierOf(rows: seq<MarkupRow>, basis: Basis): real {
    if rows == [] then 1.0
    else if rows[|rows| - 1].basis == basis then rows[|rows| - 1].multiplier
    else MultiplierOf(rows[..|rows| - 1], basis)
  }

  function Lifted(amount: real, kindMultiplier: real, profitMultiplier: real): real {
    amount * kindMultiplier * profitMultiplier
  }

  /** A cost line's amount after markup, before rounding. */
  function Marked(line: CostLine, markup: Markup): real {
    Lifted(line.amount, MultiplierOf(markup.rows, OfKind(line.kind)), MultiplierOf(markup.rows, Profit))
  }

  function BakedRate(unitCost: real, kindMultiplier: real, profitMultiplier: real): real {
    Round4(unitCost * kindMultiplier * profitMultiplier)
  }

  function Signed(isDeduction: bool, x: real): real {
    if isDeduction then -x else x
  }

  function LineOf(line: CostLine, markup: Markup, args: Args, outside: Outside): Line {
    Line(args.fallbackServiceItemCode, Signed(args.isDeduction, line.quantity), line.unit,
      BakedRate(line.unitCost, MultiplierOf(markup.rows, OfKind(line.kind)), MultiplierOf(markup.rows, Profit)),
      Signed(args.isDeduction, Round2(Marked(line, markup))), args.divisionCode, args.assembly.header.id, line.componentId,
      line.kind, outside.unitWarning(args.measurement.unit, line.unit))
  }

  /** The estimate line of a cost line, as a function of the cost line. */
  function Liner(markup: Markup, args: Args, outside: Outside): CostLine -> Line {
    (line: CostLine) => LineOf(line, markup, args, outside)
  }

  function LinesOf(costs: seq<CostLine>, lineOf: CostLine -> Line): seq<Line> {
    seq(|costs|, i requires 0 <= i < |costs| => lineOf(costs[i]))
  }

  function Explode(args: Args, outside: Outside): Result<Explosion, Error> {
    var included := Included(args.assembly.components, args.measurement, outside);
    if included.Err? then Err(included.error)
    else
      var overrides := Resolved(included.value, args.measurement, outside, map[]);
      if overrides.Err? then Err(overrides.error)
      else if args.measurement.quantity < 0.0 then Err(BadQuantity)
      else
        var costs := CostLines(SortBy(included.value, SortOrder()), args.assembly.header.id,
            Pricer(args.measurement.quantity, overrides.value));
        var byKind := ByKind(costs, NOTHING);
        var markup := ApplyMarkup(byKind, args.profile);
        Ok(Explosion(costs, byKind, TotalOf(costs, 0.0), markup, LinesOf(costs, Liner(markup, args, outside))))
  }

  // ---------- the loops ----------

  method ResolveComponentFormulas(components: seq<Component>, m: Measurement,
      outside: Outside) returns (result: Result<map<string, real>, Error>)
    ensures result == Resolved(components, m, outside, map[])
  {
    var resolved := map[];
    for i := 0 to |components|
      invariant Resolved(components, m, outside, map[]) == Resolved(components[i..], m, outside, resolved)
    {
      var c := components[i];
      assert components[i..][0] == c && components[i..][1..] == components[i + 1..];
      var kept := Include(c, m, outside);
      if kept.Err? {
        return Err(kept.error);
      }
      if kept.value && c.quantityFormula != "" {
        var value := outside.evalNumber(c.quantityFormula, FormulaContext(c, m));
        if value.None? {
          return Err(BadFormula(c.name));
        }
        resolved := resolved[c.id := value.value];
      }
    }
    result := Ok(resolved);
  }

  method AddLine(lines: seq<CostLine>, byKind: Subtotals, total: real, line: CostLine)
    returns (longer: seq<CostLine>, subtotals: Subtotals, sum: real)
    requires byKind == ByKind(lines, NOTHING) && total == TotalOf(lines, 0.0)
    ensures longer == lines + [line] && subtotals == ByKind(longer, NOTHING) && sum == TotalOf(longer, 0.0)
  {
    ByKindSnoc(lines, line, NOTHING);
    TotalSnoc(lines, line, 0.0);
    sum := Round4(total + line.amount);
    subtotals := Added(byKind, line.kind, line.amount);
    longer := lines + [line];
  }

  /** The domain's loop over the sorted components. */
  method ResolveAssembly(sorted: seq<Component>, assemblyId: string, price: Component -> CostLine)
    returns (lines: seq<CostLine>, byKind: Subtotals, total: real)
    ensures lines == CostLines(sorted, assemblyId, price)
    ensures byKind == ByKind(lines, NOTHING) && total == TotalOf(lines, 0.0)
  {
    lines, byKind, total := [], NOTHING, 0.0;
    ghost var all := CostLines(sorted, assemblyId, price);
    for i := 0 to |sorted|
      invariant all == lines + CostLines(sorted[i..], assemblyId, price)
      invariant byKind == ByKind(lines, NOTHING) && total == TotalOf(lines, 0.0)
    {
      if sorted[i].assemblyId == assemblyId {
        lines, byKind, total := AddLine(lines, byKind, total, price(sorted[i]));
      }
    }
    assert sorted[|sorted|..] == [];
  }

  lemma {:induction false} ByKindSnoc(lines: seq<CostLine>, line: CostLine, sofar: Subtotals)
    ensures ByKind(lines + [line], sofar) == Added(ByKind(lines, sofar), line.kind, line.amount)
  {
    if lines == [] {
      assert [line][1..] == [] && [] + [line] == [line];
    } else {
      assert (lines + [line])[0] == lines[0] && (lines + [line])[1..] == lines[1..] + [line];
      ByKindSnoc(lines[1..], line, Added(sofar, lines[0].kind, lines[0].amount));
    }
  }

  lemma {:induction false} TotalSnoc(lines: seq<CostLine>, line: CostLine, sofar: real)
    ensures TotalOf(lines + [line], sofar) == Round4(TotalOf(lines, sofar) + line.amount)
  {
    if lines == [] {
      assert [line][1..] == [] && [] + [line] == [line];
    } else {
      assert (lines + [line])[0] == lines[0] && (lines + [line])[1..] == lines[1..] + [line];
      TotalSnoc(lines[1..], line, Round4(sofar + lines[0].amount));
    }
  }

  method MakeLines(costs: seq<CostLine>, lineOf: CostLine -> Line) returns (lines: seq<Line>)
    ensures lines == LinesOf(costs, lineOf)
  {
    lines := [];
    for i := 0 to |costs|
      invariant lines == LinesOf(costs, lineOf)[..i]
    {
      lines := lines + [lineOf(costs[i])];
    }
  }

  method ExplodeMeasurement(args: Args, outside: Outside) returns (result: Result<Explosion, Error>)
    ensures result == Explode(args, outside)
  {
    var included := Included(args.assembly.components, args.measurement, outside);
    if included.Err? {
      return Err(included.error);
    }
    var overrides := ResolveComponentFormulas(included.value, args.measurement, outside);
    if overrides.Err? {
      return Err(overrides.error);
    }
    if args.measurement.quantity < 0.0 {
      return Err(BadQuantity);
    }
    var costs, byKind, total := ResolveAssembly(SortBy(included.value, SortOrder()), args.assembly.header.id,
        Pricer(args.measurement.quantity, overrides.value));
    var markup := ApplyMarkup(byKind, args.profile);
    var lines := MakeLines(costs, Liner(markup, args, outside));
    result := Ok(Explosion(costs, byKind, total, markup, lines));
  }
}
