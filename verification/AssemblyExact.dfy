/** When the exploded lines add up to the stored total to the cent: exactly when the remainders that
    rounding leaves behind stay in the half-cent window.  The conditions speak of the cost lines, their
    subtotals and the pricing profile, all known before the markup is applied. */
module AssemblyExact {
  import opened Basics
  import opened Sorting
  import opened Assembly
  import opened AssemblyTotals

  // ---------- remainders ----------

  /** What rounding to cents leaves behind. */
  function Remainder(x: real): real {
    x - Round2(x)
  }

  /** What rounding a lifted subtotal to cents leaves behind. */
  function RowLeft(raw: real, multiplier: real): real {
    raw * multiplier - MarkedUp(raw, multiplier)
  }

  /** A cost line's amount with the lift of its kind and the profit, before rounding. */
  function LiftedBy(line: CostLine, lift: Kind -> real, profit: real): real {
    Lifted(line.amount, lift(line.kind), profit)
  }

  function LineRemainder(lift: Kind -> real, profit: real): CostLine -> real {
    (line: CostLine) => Remainder(LiftedBy(line, lift, profit))
  }

  function RowRemainder(s: Subtotals, lift: Kind -> real): Kind -> real {
    (kind: Kind) => RowLeft(Of(s, kind), lift(kind))
  }

  function Gap(lineRemainders: real, rowRemainders: real, profit: real): real {
    lineRemainders - rowRemainders * profit
  }

  /** What the lines leave behind, against what the rows leave behind with profit on top. */
  function Drift(costs: seq<CostLine>, s: Subtotals, lift: Kind -> real, profit: real): real {
    Gap(Sum(costs, LineRemainder(lift, profit)), Total(KINDS, RowRemainder(s, lift)), profit)
  }

  lemma {:induction false} SumSplits(costs: seq<CostLine>, rounded: CostLine -> real, exact: CostLine -> real, remainder: CostLine -> real)
    requires forall line :: rounded(line) == exact(line) - remainder(line)
    ensures Sum(costs, rounded) == Sum(costs, exact) - Sum(costs, remainder)
    ensures forall kind :: KindSum(costs, kind, rounded) == KindSum(costs, kind, exact) - KindSum(costs, kind, remainder)
  {
    if costs != [] {
      SumSplits(costs[1..], rounded, exact, remainder);
    }
  }

  lemma {:induction false} TotalSplits(kinds: seq<Kind>, rounded: Kind -> real, exact: Kind -> real, remainder: Kind -> real)
    requires forall kind :: rounded(kind) == exact(kind) - remainder(kind)
    ensures Total(kinds, rounded) == Total(kinds, exact) - Total(kinds, remainder)
  {
    if kinds != [] {
      TotalSplits(kinds[1..], rounded, exact, remainder);
    }
  }

  lemma {:induction false} SumCents(costs: seq<CostLine>, value: CostLine -> real)
    requires forall line :: Cents(value(line))
    ensures Cents(Sum(costs, value)) && forall kind :: Cents(KindSum(costs, kind, value))
  {
    if costs != [] {
      SumCents(costs[1..], value);
      CentsAdd(value(costs[0]), Sum(costs[1..], value));
      forall kind ensures Cents(KindSum(costs, kind, value)) {
        CentsAdd(value(costs[0]), KindSum(costs[1..], kind, value));
      }
    }
  }

  lemma MarkedSplits(costs: seq<CostLine>, s: Subtotals, lift: Kind -> real, profit: real, markup: Markup)
    requires ReadsAs(markup, s, lift, profit)
    ensures Sum(costs, RoundedOf(markup)) == Sum(costs, MarkedOf(markup)) - Sum(costs, LineRemainder(lift, profit))
    ensures forall kind ::
      KindSum(costs, kind, RoundedOf(markup)) == KindSum(costs, kind, MarkedOf(markup)) - KindSum(costs, kind, LineRemainder(lift, profit))
    ensures Cents(Sum(costs, RoundedOf(markup))) && forall kind :: Cents(KindSum(costs, kind, RoundedOf(markup)))
  {
    forall line: CostLine
      ensures RoundedOf(markup)(line) == MarkedOf(markup)(line) - LineRemainder(lift, profit)(line)
      ensures Cents(RoundedOf(markup)(line))
    {
      assert RowMultiplier(markup)(line.kind) == lift(line.kind);
      Round2Keeps(Marked(line, markup));
    }
    SumSplits(costs, RoundedOf(markup), MarkedOf(markup), LineRemainder(lift, profit));
    SumCents(costs, RoundedOf(markup));
  }

  lemma RowSplits(raw: real, multiplier: real, lifted: real)
    requires lifted == raw * multiplier
    ensures MarkedUp(raw, multiplier) == lifted - RowLeft(raw, multiplier)
  {
  }

  lemma RowsSplit(s: Subtotals, lift: Kind -> real)
    ensures Total(KINDS, CentsOf(s, lift)) == Total(KINDS, LiftOf(s, lift)) - Total(KINDS, RowRemainder(s, lift))
  {
    forall kind: Kind ensures CentsOf(s, lift)(kind) == LiftOf(s, lift)(kind) - RowRemainder(s, lift)(kind) {
      RowSplits(Of(s, kind), lift(kind), LiftOf(s, lift)(kind));
    }
    TotalSplits(KINDS, CentsOf(s, lift), LiftOf(s, lift), RowRemainder(s, lift));
  }

  // ---------- the lines against the total ----------

  lemma Meets(
      rounded: real, marked: real, lineRemainders: real, lifted: real, rowRemainders: real, subtotal: real, profit: real, total: real)
    requires rounded == marked - lineRemainders && IsProduct(marked, lifted, profit) && subtotal == lifted - rowRemainders
    requires total == MarkedUp(subtotal, profit) && Cents(rounded)
    ensures rounded == total <==> HalfCentWindow(Gap(lineRemainders, rowRemainders, profit))
  {
    Subtracted(lifted, rowRemainders, subtotal, profit);
    Round2Iff(subtotal * profit, rounded);
  }

  lemma Subtracted(lifted: real, rowRemainders: real, subtotal: real, profit: real)
    requires subtotal == lifted - rowRemainders
    ensures subtotal * profit == lifted * profit - rowRemainders * profit
  {
  }

  lemma RowsRead(s: Subtotals, lift: Kind -> real, markup: Markup)
    requires forall kind :: RowMultiplier(markup)(kind) == lift(kind)
    ensures LiftedTotal(s, markup) == Total(KINDS, LiftOf(s, lift))
  {
    LiftSame(s, RowMultiplier(markup), lift);
  }

  lemma MarkedTimes(costs: seq<CostLine>, s: Subtotals, lift: Kind -> real, profit: real, markup: Markup)
    requires ReadsAs(markup, s, lift, profit) && forall kind :: Of(s, kind) == KindSum(costs, kind, AmountOf())
    ensures IsProduct(Sum(costs, MarkedOf(markup)), Total(KINDS, LiftOf(s, lift)), profit)
  {
    MarkedIsLifted(costs, s, markup);
    RowsRead(s, lift, markup);
  }

  lemma SumMeetsTotal(costs: seq<CostLine>, s: Subtotals, lift: Kind -> real, profit: real, markup: Markup)
    requires ReadsAs(markup, s, lift, profit) && forall kind :: Of(s, kind) == KindSum(costs, kind, AmountOf())
    ensures Sum(costs, RoundedOf(markup)) == markup.total <==> HalfCentWindow(Drift(costs, s, lift, profit))
  {
    MarkedSplits(costs, s, lift, profit, markup);
    MarkedTimes(costs, s, lift, profit, markup);
    RowsSplit(s, lift);
    Meets(
      Sum(costs, RoundedOf(markup)), Sum(costs, MarkedOf(markup)), Sum(costs, LineRemainder(lift, profit)), Total(KINDS, LiftOf(s, lift)),
      Total(KINDS, RowRemainder(s, lift)), Total(KINDS, CentsOf(s, lift)), profit, markup.total);
  }

  // ---------- what is known before the explosion ----------

  /** The cost lines of a measurement: the included components in order, at the prices of the pricer,
      with the quantities that their formulas give. */
  function CostsOf(args: Args, outside: Outside): seq<CostLine> {
    var included := Included(args.assembly.components, args.measurement, outside);
    if included.Err? then []
    else
      var overrides := Resolved(included.value, args.measurement, outside, map[]);
      if overrides.Err? then []
      else CostLines(SortBy(included.value, SortOrder()), args.assembly.header.id, Pricer(args.measurement.quantity, overrides.value))
  }

  function SubtotalsOf(args: Args, outside: Outside): Subtotals {
    ByKind(CostsOf(args, outside), NOTHING)
  }

  /** The multiplier that the profile gives a kind of these costs, and the one it gives their profit. */
  function LiftFor(args: Args, outside: Outside): Kind -> real {
    KindLift(SubtotalsOf(args, outside), NormalizeConfig(args.profile))
  }

  function ProfitFor(args: Args, outside: Outside): real {
    ProfitLift(SubtotalsOf(args, outside), NormalizeConfig(args.profile))
  }

  function DriftBefore(args: Args, outside: Outside): real {
    Drift(CostsOf(args, outside), SubtotalsOf(args, outside), LiftFor(args, outside), ProfitFor(args, outside))
  }

  lemma KnownBefore(args: Args, outside: Outside)
    requires Explode(args, outside).Ok?
    ensures var e := Explode(args, outside).value;
      e.costs == CostsOf(args, outside) && e.byKind == SubtotalsOf(args, outside)
  {
  }

  /** Whatever the profile, the stored line totals sum to `markup.total` exactly when the drift of the
      costs, known before the explosion, lies in the half-cent window. */
  lemma LinesSumExactly(args: Args, outside: Outside)
    requires Explode(args, outside).Ok?
    ensures var e := Explode(args, outside).value;
      AmountSum(e.lines) == Signed(args.isDeduction, e.markup.total) <==> HalfCentWindow(DriftBefore(args, outside))
  {
    KnownBefore(args, outside);
    var e := Explode(args, outside).value;
    ExplosionReads(args, outside);
    ExplosionSound(args, outside);
    SumMeetsTotal(e.costs, e.byKind, LiftFor(args, outside), ProfitFor(args, outside), e.markup);
  }

  // ---------- whole cents ----------

  lemma {:induction false} SumZero(costs: seq<CostLine>, value: CostLine -> real)
    requires forall i :: 0 <= i < |costs| ==> value(costs[i]) == 0.0
    ensures Sum(costs, value) == 0.0
  {
    if costs != [] {
      SumZero(costs[1..], value);
    }
  }

  lemma {:induction false} TotalZero(kinds: seq<Kind>, value: Kind -> real)
    requires forall kind :: value(kind) == 0.0
    ensures Total(kinds, value) == 0.0
  {
    if kinds != [] {
      TotalZero(kinds[1..], value);
    }
  }

  predicate LiftsToCents(raw: real, multiplier: real) {
    Cents(raw * multiplier)
  }

  lemma LiftsExactly(raw: real, multiplier: real)
    requires LiftsToCents(raw, multiplier)
    ensures RowLeft(raw, multiplier) == 0.0
  {
    Round2Fixed(raw * multiplier);
  }

  lemma LiftsAdd(a: real, b: real, multiplier: real)
    requires LiftsToCents(a, multiplier) && LiftsToCents(b, multiplier)
    ensures LiftsToCents(a + b, multiplier)
  {
    Factor(a, b, multiplier);
    CentsAdd(a * multiplier, b * multiplier);
  }

  /** Every lifted subtotal, and every lifted line with its profit, is whole cents. */
  predicate AllWholeCents(costs: seq<CostLine>, s: Subtotals, lift: Kind -> real, profit: real) {
    && (forall kind :: LiftsToCents(Of(s, kind), lift(kind)))
    && (forall i :: 0 <= i < |costs| ==> Cents(LiftedBy(costs[i], lift, profit)))
  }

  lemma WholeCentsDrift(costs: seq<CostLine>, s: Subtotals, lift: Kind -> real, profit: real)
    requires AllWholeCents(costs, s, lift, profit)
    ensures Drift(costs, s, lift, profit) == 0.0
  {
    forall i | 0 <= i < |costs| ensures LineRemainder(lift, profit)(costs[i]) == 0.0 {
      Round2Fixed(LiftedBy(costs[i], lift, profit));
    }
    forall kind: Kind ensures RowRemainder(s, lift)(kind) == 0.0 {
      LiftsExactly(Of(s, kind), lift(kind));
    }
    SumZero(costs, LineRemainder(lift, profit));
    TotalZero(KINDS, RowRemainder(s, lift));
    assert 0.0 * profit == 0.0;
  }

  /** With or without profit, whole cents add up. */
  lemma WholeCentsAddUp(args: Args, outside: Outside)
    requires Explode(args, outside).Ok?
    requires AllWholeCents(CostsOf(args, outside), SubtotalsOf(args, outside), LiftFor(args, outside), ProfitFor(args, outside))
    ensures var e := Explode(args, outside).value; AmountSum(e.lines) == Signed(args.isDeduction, e.markup.total)
  {
    LinesSumExactly(args, outside);
    WholeCentsDrift(CostsOf(args, outside), SubtotalsOf(args, outside), LiftFor(args, outside), ProfitFor(args, outside));
  }

  // ---------- without profit ----------

  function CountKind(costs: seq<CostLine>, kind: Kind): nat {
    if costs == [] then 0 else (if costs[0].kind == kind then 1 else 0) + CountKind(costs[1..], kind)
  }

  /** Rounding cannot tell the lines of this kind from their sum. */
  predicate RoundsAlike(costs: seq<CostLine>, kind: Kind, lift: Kind -> real) {
    CountKind(costs, kind) <= 1 || forall i :: 0 <= i < |costs| && costs[i].kind == kind ==> Cents(LiftedBy(costs[i], lift, 1.0))
  }

  /** A line without profit leaves behind what a subtotal of one line does. */
  lemma OneLine(amount: real, multiplier: real)
    ensures Remainder(Lifted(amount, multiplier, 1.0)) == RowLeft(amount, multiplier)
    ensures Cents(Lifted(amount, multiplier, 1.0)) <==> LiftsToCents(amount, multiplier)
  {
    SameLifted(Lifted(amount, multiplier, 1.0), amount, multiplier);
  }

  lemma SameLifted(x: real, amount: real, multiplier: real)
    requires x == amount * multiplier
    ensures Remainder(x) == RowLeft(amount, multiplier)
    ensures Cents(x) <==> LiftsToCents(amount, multiplier)
  {
  }

  lemma NoLine(multiplier: real)
    ensures RowLeft(0.0, multiplier) == 0.0 && LiftsToCents(0.0, multiplier)
  {
    LiftClose(0.0, multiplier);
  }

  lemma {:induction false} FewLines(costs: seq<CostLine>, kind: Kind, lift: Kind -> real)
    requires CountKind(costs, kind) <= 1
    ensures CountKind(costs, kind) == 0 ==> KindSum(costs, kind, AmountOf()) == KindSum(costs, kind, LineRemainder(lift, 1.0)) == 0.0
    ensures KindSum(costs, kind, LineRemainder(lift, 1.0)) == RowLeft(KindSum(costs, kind, AmountOf()), lift(kind))
  {
    if costs == [] {
      NoLine(lift(kind));
    } else {
      FewLines(costs[1..], kind, lift);
      OneLine(costs[0].amount, lift(kind));
    }
  }

  lemma {:induction false} WholeLines(costs: seq<CostLine>, kind: Kind, lift: Kind -> real)
    requires forall i :: 0 <= i < |costs| && costs[i].kind == kind ==> Cents(LiftedBy(costs[i], lift, 1.0))
    ensures KindSum(costs, kind, LineRemainder(lift, 1.0)) == 0.0
    ensures LiftsToCents(KindSum(costs, kind, AmountOf()), lift(kind))
  {
    if costs == [] {
      NoLine(lift(kind));
    } else {
      WholeLines(costs[1..], kind, lift);
      if costs[0].kind == kind {
        Round2Fixed(LiftedBy(costs[0], lift, 1.0));
        OneLine(costs[0].amount, lift(kind));
        LiftsAdd(costs[0].amount, KindSum(costs[1..], kind, AmountOf()), lift(kind));
      }
    }
  }

  lemma AlikeRemainders(costs: seq<CostLine>, kind: Kind, lift: Kind -> real)
    requires RoundsAlike(costs, kind, lift)
    ensures KindSum(costs, kind, LineRemainder(lift, 1.0)) == RowLeft(KindSum(costs, kind, AmountOf()), lift(kind))
  {
    if CountKind(costs, kind) <= 1 {
      FewLines(costs, kind, lift);
    } else {
      WholeLines(costs, kind, lift);
      LiftsExactly(KindSum(costs, kind, AmountOf()), lift(kind));
    }
  }

  lemma AlikeDrift(costs: seq<CostLine>, s: Subtotals, lift: Kind -> real)
    requires forall kind :: Of(s, kind) == KindSum(costs, kind, AmountOf())
    requires forall kind :: RoundsAlike(costs, kind, lift)
    ensures Drift(costs, s, lift, 1.0) == 0.0
  {
    forall kind: Kind ensures KindSum(costs, kind, LineRemainder(lift, 1.0)) == RowRemainder(s, lift)(kind) {
      AlikeRemainders(costs, kind, lift);
    }
    SumByKind(costs, LineRemainder(lift, 1.0), RowRemainder(s, lift));
    var rows := Total(KINDS, RowRemainder(s, lift));
    assert rows * 1.0 == rows;
  }

  /** Without profit it is enough that every kind has a single line or whole-cent lines. */
  lemma PlainKindsAddUp(args: Args, outside: Outside)
    requires Explode(args, outside).Ok? && ProfitFor(args, outside) == 1.0
    requires forall kind :: RoundsAlike(CostsOf(args, outside), kind, LiftFor(args, outside))
    ensures var e := Explode(args, outside).value; AmountSum(e.lines) == Signed(args.isDeduction, e.markup.total)
  {
    LinesSumExactly(args, outside);
    KnownBefore(args, outside);
    CostsAddUp(args, outside);
    AlikeDrift(CostsOf(args, outside), SubtotalsOf(args, outside), LiftFor(args, outside));
  }

  // ---------- the lines of a kind against its row ----------

  /** The stored amounts of a kind. */
  function KindAmounts(lines: seq<Line>, kind: Kind): real {
    if lines == [] then 0.0 else (if lines[0].kind == kind then lines[0].amount else 0.0) + KindAmounts(lines[1..], kind)
  }

  lemma {:induction false} KindLinesSum(costs: seq<CostLine>, kind: Kind, markup: Markup, args: Args, outside: Outside)
    ensures KindAmounts(LinesOf(costs, Liner(markup, args, outside)), kind)
      == Signed(args.isDeduction, KindSum(costs, kind, RoundedOf(markup)))
  {
    if costs != [] {
      LinesTail(costs, Liner(markup, args, outside));
      KindLinesSum(costs[1..], kind, markup, args, outside);
    }
  }

  /** The row that the markup shows for a kind with a cost. */
  function KindRow(s: Subtotals, lift: Kind -> real, kind: Kind): MarkupRow {
    MarkupRow(OfKind(kind), lift(kind), Round2(Of(s, kind)), MarkedUp(Of(s, kind), lift(kind)))
  }

  lemma {:induction false} RowAmongRows(kinds: seq<Kind>, rowOf: Kind -> seq<MarkupRow>, kind: Kind)
    requires kind in kinds
    ensures forall row :: row in rowOf(kind) ==> row in KindRows(kinds, rowOf)
  {
    if kinds[0] != kind {
      RowAmongRows(kinds[1..], rowOf, kind);
    }
  }

  lemma RowShown(s: Subtotals, raw: RawConfig, kind: Kind)
    requires Of(s, kind) != 0.0
    ensures KindRow(s, KindLift(s, NormalizeConfig(raw)), kind) in ApplyMarkup(s, raw).rows
  {
    var m := Multipliers(NormalizeConfig(raw));
    assert kind in KINDS by {
      assert KINDS[0] == Material && KINDS[1] == Labor && KINDS[2] == Sub && KINDS[3] == Freight;
    }
    RowAmongRows(KINDS, RowOf(s, m), kind);
    assert RowOf(s, m)(kind)[0] == KindRow(s, KindLift(s, NormalizeConfig(raw)), kind);
  }

  /** What the lines of a kind leave behind, less what the profit adds to them. */
  function RowGap(remainders: real, raw: real, multiplier: real, profit: real): real {
    remainders - raw * multiplier * (profit - 1.0)
  }

  lemma KindMeetsRow(costs: seq<CostLine>, s: Subtotals, lift: Kind -> real, profit: real, markup: Markup, kind: Kind)
    requires ReadsAs(markup, s, lift, profit) && Of(s, kind) == KindSum(costs, kind, AmountOf())
    ensures KindSum(costs, kind, RoundedOf(markup)) == MarkedUp(Of(s, kind), lift(kind))
      <==> HalfCentWindow(RowGap(KindSum(costs, kind, LineRemainder(lift, profit)), Of(s, kind), lift(kind), profit))
  {
    MarkedSplits(costs, s, lift, profit, markup);
    KindMarked(costs, kind, markup);
    assert RowMultiplier(markup)(kind) == lift(kind);
    RowWindow(
      KindSum(costs, kind, RoundedOf(markup)), KindSum(costs, kind, MarkedOf(markup)), KindSum(costs, kind, LineRemainder(lift, profit)),
      Of(s, kind), lift(kind), profit);
  }

  lemma RowWindow(rounded: real, marked: real, remainders: real, raw: real, multiplier: real, profit: real)
    requires rounded == marked - remainders && IsMarked(marked, raw, multiplier, profit) && Cents(rounded)
    ensures rounded == MarkedUp(raw, multiplier) <==> HalfCentWindow(RowGap(remainders, raw, multiplier, profit))
  {
    var lifted := raw * multiplier;
    Uplift(lifted, profit);
    Round2Iff(lifted, rounded);
  }

  lemma Uplift(lifted: real, profit: real)
    ensures lifted * (profit - 1.0) == lifted * profit - lifted
  {
  }

  /** For every kind with a cost, the markup has a row, and the stored amounts of the kind sum to it
      exactly when their accumulated remainder, less what the profit adds, lies in the half-cent
      window; without profit, when the accumulated remainder does. */
  lemma KindSumsToItsRow(args: Args, outside: Outside, kind: Kind)
    requires Explode(args, outside).Ok? && Of(SubtotalsOf(args, outside), kind) != 0.0
    ensures var e := Explode(args, outside).value;
      var raw, lift, profit := Of(SubtotalsOf(args, outside), kind), LiftFor(args, outside), ProfitFor(args, outside);
      var row, left := KindRow(SubtotalsOf(args, outside), lift, kind), KindSum(CostsOf(args, outside), kind, LineRemainder(lift, profit));
      && row in e.markup.rows
      && (KindAmounts(e.lines, kind) == Signed(args.isDeduction, row.after) <==> HalfCentWindow(RowGap(left, raw, lift(kind), profit)))
      && (profit == 1.0 ==> (KindAmounts(e.lines, kind) == Signed(args.isDeduction, row.after) <==> HalfCentWindow(left)))
  {
    KnownBefore(args, outside);
    var e, lift, profit := Explode(args, outside).value, LiftFor(args, outside), ProfitFor(args, outside);
    ExplosionReads(args, outside);
    CostsAddUp(args, outside);
    RowShown(e.byKind, args.profile, kind);
    KindMeetsRow(e.costs, e.byKind, lift, profit, e.markup, kind);
    KindLinesSum(e.costs, kind, e.markup, args, outside);
    NoUplift(KindSum(e.costs, kind, LineRemainder(lift, profit)), Of(e.byKind, kind), lift(kind), profit);
  }

  lemma NoUplift(remainders: real, raw: real, multiplier: real, profit: real)
    ensures profit == 1.0 ==> RowGap(remainders, raw, multiplier, profit) == remainders
  {
  }
}
