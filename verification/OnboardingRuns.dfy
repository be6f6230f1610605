/** Seeding twice is seeding once, seeding only adds, and what a new assembly costs. */
module OnboardingRuns {
  import opened Assembly
  import opened AssemblyTotals
  import opened Onboarding

  // ---------- guarded inserts ----------

  lemma {:induction false} SeedGrows<T, K>(rows: seq<T>, more: seq<T>, key: T -> K, live: T -> bool)
    ensures rows <= SeedRows(rows, more, key, live)
    decreases |more|
  {
    if more != [] {
      SeedGrows(InsertUnless(rows, more[0], key, live), more[1..], key, live);
    }
  }

  /** After seeding, every key of the template is taken. */
  lemma {:induction false} SeedCovers<T, K>(rows: seq<T>, more: seq<T>, key: T -> K, live: T -> bool)
    requires forall i :: 0 <= i < |more| ==> live(more[i])
    ensures forall i :: 0 <= i < |more| ==> Taken(SeedRows(rows, more, key, live), key(more[i]), key, live)
    decreases |more|
  {
    if more != [] {
      var next := InsertUnless(rows, more[0], key, live);
      SeedCovers(next, more[1..], key, live);
      SeedGrows(next, more[1..], key, live);
      InsertTakes(rows, more[0], key, live);
      forall i | 0 <= i < |more| ensures Taken(SeedRows(rows, more, key, live), key(more[i]), key, live) {
        if i > 0 {
          assert more[i] == more[1..][i - 1];
        }
      }
    }
  }

  lemma {:induction false} SeedIdle<T, K>(rows: seq<T>, more: seq<T>, key: T -> K, live: T -> bool)
    requires forall i :: 0 <= i < |more| ==> Taken(rows, key(more[i]), key, live)
    ensures SeedRows(rows, more, key, live) == rows
    decreases |more|
  {
    if more != [] {
      assert Taken(rows, key(more[0]), key, live);
      SeedIdle(rows, more[1..], key, live);
    }
  }

  /** The guard respects the unique index. */
  lemma {:induction false} SeedKeepsUnique<T, K>(rows: seq<T>, more: seq<T>, key: T -> K, live: T -> bool)
    requires Unique(rows, key, live)
    ensures Unique(SeedRows(rows, more, key, live), key, live)
    decreases |more|
  {
    if more != [] {
      SeedKeepsUnique(InsertUnless(rows, more[0], key, live), more[1..], key, live);
    }
  }

  // ---------- assemblies ----------

  lemma SeedAssemblyHas(t: Tables, companyId: string, a: AssemblyTemplate)
    ensures HasAssembly(SeedAssembly(t, companyId, a).assemblies, companyId, a.name)
  {
    if !HasAssembly(t.assemblies, companyId, a.name) {
      assert SeedAssembly(t, companyId, a).assemblies[|t.assemblies|] == HeaderRow(companyId, t.nextId, a);
    }
  }

  /** Nothing but assemblies and parts is touched, and those only grow. */
  lemma {:induction false} SeedAssembliesGrow(t: Tables, companyId: string, assemblies: seq<AssemblyTemplate>)
    ensures var s := SeedAssemblies(t, companyId, assemblies);
      && t.assemblies <= s.assemblies && t.parts <= s.parts && t.nextId <= s.nextId
      && s == t.(assemblies := s.assemblies, parts := s.parts, nextId := s.nextId)
    decreases |assemblies|
  {
    if assemblies != [] {
      SeedAssembliesGrow(SeedAssembly(t, companyId, assemblies[0]), companyId, assemblies[1..]);
    }
  }

  /** Every assembly of the template has a live namesake. */
  predicate HasAll(rows: seq<AssemblyRow>, companyId: string, assemblies: seq<AssemblyTemplate>) {
    forall i :: 0 <= i < |assemblies| ==> HasAssembly(rows, companyId, assemblies[i].name)
  }

  lemma {:induction false} SeedAssembliesCover(t: Tables, companyId: string, assemblies: seq<AssemblyTemplate>)
    ensures HasAll(SeedAssemblies(t, companyId, assemblies).assemblies, companyId, assemblies)
    decreases |assemblies|
  {
    if assemblies != [] {
      var next, s := SeedAssembly(t, companyId, assemblies[0]), SeedAssemblies(t, companyId, assemblies);
      SeedAssembliesCover(next, companyId, assemblies[1..]);
      SeedAssembliesGrow(next, companyId, assemblies[1..]);
      SeedAssemblyHas(t, companyId, assemblies[0]);
      forall i | 0 <= i < |assemblies| ensures HasAssembly(s.assemblies, companyId, assemblies[i].name) {
        if i > 0 {
          assert assemblies[i] == assemblies[1..][i - 1];
        }
      }
    }
  }

  lemma {:induction false} SeedAssembliesIdle(t: Tables, companyId: string, assemblies: seq<AssemblyTemplate>)
    requires HasAll(t.assemblies, companyId, assemblies)
    ensures SeedAssemblies(t, companyId, assemblies) == t
    decreases |assemblies|
  {
    if assemblies != [] {
      assert HasAssembly(t.assemblies, companyId, assemblies[0].name);
      SeedAssembliesIdle(t, companyId, assemblies[1..]);
    }
  }

  // ---------- seeding again ----------

  /** Every guard of the reference tables is satisfied. */
  predicate Stamped(t: Tables, companyId: string, template: Template) {
    && (forall i :: 0 <= i < |template.divisions| ==> Taken(t.divisions, DivisionKey()(DivisionRow(companyId,
        template.divisions[i])), DivisionKey(), Always()))
    && (forall i :: 0 <= i < |template.items| ==> Taken(t.items, ItemKey()(ItemRow(companyId, template.items[i])), ItemKey(), Always()))
    && (forall i :: 0 <= i < |template.items| ==> Taken(t.itemDivisions, LinkRow(companyId, template.items[i]), LinkKey(), Always()))
    && HasSingles(t, companyId)
  }

  lemma DivisionsCovered(rows: seq<Division>, companyId: string, ds: seq<DivisionTemplate>)
    ensures var s := SeedRows(rows, DivisionRows(companyId, ds), DivisionKey(), Always());
      forall i :: 0 <= i < |ds| ==> Taken(s, DivisionKey()(DivisionRow(companyId, ds[i])), DivisionKey(), Always())
  {
    var more := DivisionRows(companyId, ds);
    SeedCovers(rows, more, DivisionKey(), Always());
    assert forall i :: 0 <= i < |ds| ==> more[i] == DivisionRow(companyId, ds[i]);
  }

  lemma ItemsCovered(rows: seq<ServiceItem>, links: seq<ItemDivision>, companyId: string, items: seq<ItemTemplate>)
    ensures var s := SeedRows(rows, ItemRows(companyId, items), ItemKey(), Always());
      forall i :: 0 <= i < |items| ==> Taken(s, ItemKey()(ItemRow(companyId, items[i])), ItemKey(), Always())
    ensures var s := SeedRows(links, LinkRows(companyId, items), LinkKey(), Always());
      forall i :: 0 <= i < |items| ==> Taken(s, LinkRow(companyId, items[i]), LinkKey(), Always())
  {
    var more, also := ItemRows(companyId, items), LinkRows(companyId, items);
    SeedCovers(rows, more, ItemKey(), Always());
    SeedCovers(links, also, LinkKey(), Always());
    assert forall i :: 0 <= i < |items| ==> more[i] == ItemRow(companyId, items[i]);
    assert forall i :: 0 <= i < |items| ==> also[i] == LinkRow(companyId, items[i]) == LinkKey()(also[i]);
  }

  lemma ReferenceStamped(t: Tables, companyId: string, template: Template)
    ensures Stamped(SeedReference(t, companyId, template), companyId, template)
  {
    DivisionsCovered(t.divisions, companyId, template.divisions);
    ItemsCovered(t.items, t.itemDivisions, companyId, template.items);
    SinglesThere(t, companyId, template.slug);
  }

  lemma StampedIdle(t: Tables, companyId: string, template: Template)
    requires Stamped(t, companyId, template)
    ensures SeedReference(t, companyId, template) == t
  {
    var ds, its, ls := DivisionRows(companyId, template.divisions), ItemRows(companyId, template.items), LinkRows(companyId,
        template.items);
    assert forall i :: 0 <= i < |ds| ==> ds[i] == DivisionRow(companyId, template.divisions[i]);
    assert forall i :: 0 <= i < |its| ==> its[i] == ItemRow(companyId, template.items[i]);
    assert forall i :: 0 <= i < |ls| ==> LinkKey()(ls[i]) == LinkRow(companyId, template.items[i]);
    SeedIdle(t.divisions, ds, DivisionKey(), Always());
    SeedIdle(t.items, its, ItemKey(), Always());
    SeedIdle(t.itemDivisions, ls, LinkKey(), Always());
  }

  /** Seeding a template a second time changes nothing but, when asked for, one more sample customer. */
  lemma SeedTwice(t: Tables, companyId: string, template: Template, includeSample: bool)
    ensures var once := Seed(t, companyId, template, includeSample);
      Seed(once, companyId, template, includeSample) == WithSample(once, companyId, includeSample)
  {
    var stamped := WithSample(SeedReference(t, companyId, template), companyId, includeSample);
    var once := Seed(t, companyId, template, includeSample);
    ReferenceStamped(t, companyId, template);
    SeedAssembliesGrow(stamped, companyId, template.assemblies);
    StampedIdle(once, companyId, template);
    SeedAssembliesCover(stamped, companyId, template.assemblies);
    SeedAssembliesIdle(WithSample(once, companyId, includeSample), companyId, template.assemblies);
  }

  // ---------- seeding only adds ----------

  /** Every row of `t` is still in its place. */
  predicate Extends(s: Tables, t: Tables) {
    && t.divisions <= s.divisions && t.items <= s.items && t.itemDivisions <= s.itemDivisions && t.profiles <= s.profiles
    && t.rules <= s.rules && t.locations <= s.locations && t.customers <= s.customers && t.assemblies <= s.assemblies
    && t.parts <= s.parts && t.nextId <= s.nextId
  }

  lemma SeedOnlyAdds(t: Tables, companyId: string, template: Template, includeSample: bool)
    ensures Extends(Seed(t, companyId, template, includeSample), t)
  {
    SeedGrows(t.divisions, DivisionRows(companyId, template.divisions), DivisionKey(), Always());
    SeedGrows(t.items, ItemRows(companyId, template.items), ItemKey(), Always());
    SeedGrows(t.itemDivisions, LinkRows(companyId, template.items), LinkKey(), Always());
    SeedAssembliesGrow(WithSample(SeedReference(t, companyId, template), companyId, includeSample), companyId, template.assemblies);
  }

  /** Whatever is added is a row of the template. */
  lemma {:induction false} SeedAddsOnly<T, K>(rows: seq<T>, more: seq<T>, key: T -> K, live: T -> bool)
    ensures forall i :: |rows| <= i < |SeedRows(rows, more, key, live)| ==> SeedRows(rows, more, key, live)[i] in more
    decreases |more|
  {
    if more != [] {
      var next := InsertUnless(rows, more[0], key, live);
      SeedAddsOnly(next, more[1..], key, live);
      SeedGrows(next, more[1..], key, live);
      assert forall i :: |rows| <= i < |next| ==> next[i] == more[0];
      assert forall row :: row in more[1..] ==> row in more;
    }
  }

  lemma {:induction false} SeedAssembliesOwn(t: Tables, companyId: string, assemblies: seq<AssemblyTemplate>)
    ensures var s := SeedAssemblies(t, companyId, assemblies);
      && (forall i :: |t.assemblies| <= i < |s.assemblies| ==> s.assemblies[i].companyId == companyId)
      && (forall i :: |t.parts| <= i < |s.parts| ==> s.parts[i].companyId == companyId)
    decreases |assemblies|
  {
    if assemblies != [] {
      var next := SeedAssembly(t, companyId, assemblies[0]);
      SeedAssembliesOwn(next, companyId, assemblies[1..]);
      SeedAssembliesGrow(next, companyId, assemblies[1..]);
    }
  }

  /** Seeding is tenant-scoped: every row it adds belongs to the company. */
  lemma SeedIsScoped(t: Tables, companyId: string, template: Template, includeSample: bool)
    ensures var s := Seed(t, companyId, template, includeSample);
      && (forall i :: |t.divisions| <= i < |s.divisions| ==> s.divisions[i].companyId == companyId)
      && (forall i :: |t.items| <= i < |s.items| ==> s.items[i].companyId == companyId)
      && (forall i :: |t.itemDivisions| <= i < |s.itemDivisions| ==> s.itemDivisions[i].companyId == companyId)
      && (forall i :: |t.assemblies| <= i < |s.assemblies| ==> s.assemblies[i].companyId == companyId)
      && (forall i :: |t.parts| <= i < |s.parts| ==> s.parts[i].companyId == companyId)
  {
    var ds, its, ls := DivisionRows(companyId, template.divisions), ItemRows(companyId, template.items), LinkRows(companyId,
        template.items);
    var stamped := WithSample(SeedReference(t, companyId, template), companyId, includeSample);
    SeedAddsOnly(t.divisions, ds, DivisionKey(), Always());
    SeedAddsOnly(t.items, its, ItemKey(), Always());
    SeedAddsOnly(t.itemDivisions, ls, LinkKey(), Always());
    assert forall row :: row in ds ==> row.companyId == companyId;
    assert forall row :: row in its ==> row.companyId == companyId;
    assert forall row :: row in ls ==> row.companyId == companyId;
    SeedAssembliesGrow(stamped, companyId, template.assemblies);
    SeedAssembliesOwn(stamped, companyId, template.assemblies);
  }

  /** The unique indexes: codes per company, links, and one default yard per company. */
  ghost predicate Indexed(t: Tables) {
    && Unique(t.divisions, DivisionKey(), Always()) && Unique(t.items, ItemKey(), Always())
    && Unique(t.itemDivisions, LinkKey(), Always()) && Unique(t.locations, LocationKey(), LiveDefault())
  }

  lemma SeedKeepsIndexes(t: Tables, companyId: string, template: Template, includeSample: bool)
    requires Indexed(t)
    ensures Indexed(Seed(t, companyId, template, includeSample))
  {
    SeedKeepsUnique(t.divisions, DivisionRows(companyId, template.divisions), DivisionKey(), Always());
    SeedKeepsUnique(t.items, ItemRows(companyId, template.items), ItemKey(), Always());
    SeedKeepsUnique(t.itemDivisions, LinkRows(companyId, template.items), LinkKey(), Always());
    SeedAssembliesGrow(WithSample(SeedReference(t, companyId, template), companyId, includeSample), companyId, template.assemblies);
  }

  // ---------- what a new assembly costs ----------

  /** The components stored for an assembly, in order. */
  function PartsOf(parts: seq<Part>, companyId: string, id: nat): seq<Part> {
    if parts == [] then []
    else (if parts[0].companyId == companyId && parts[0].assemblyId == id then [parts[0]] else []) + PartsOf(parts[1..], companyId, id)
  }

  lemma {:induction false} PartsOfAppend(parts: seq<Part>, more: seq<Part>, companyId: string, id: nat)
    ensures PartsOf(parts + more, companyId, id) == PartsOf(parts, companyId, id) + PartsOf(more, companyId, id)
  {
    if parts == [] {
      assert parts + more == more;
    } else {
      assert (parts + more)[0] == parts[0] && (parts + more)[1..] == parts[1..] + more;
      PartsOfAppend(parts[1..], more, companyId, id);
    }
  }

  lemma {:induction false} PartsOfNone(parts: seq<Part>, companyId: string, id: nat)
    requires forall i :: 0 <= i < |parts| ==> parts[i].assemblyId != id
    ensures PartsOf(parts, companyId, id) == []
  {
    if parts != [] {
      PartsOfNone(parts[1..], companyId, id);
    }
  }

  lemma {:induction false} PartsOfAll(parts: seq<Part>, companyId: string, id: nat)
    requires forall i :: 0 <= i < |parts| ==> parts[i].companyId == companyId && parts[i].assemblyId == id
    ensures PartsOf(parts, companyId, id) == parts
  {
    if parts != [] {
      PartsOfAll(parts[1..], companyId, id);
    }
  }

  /** The header's rows are the template's components, in order, numbered from 0. */
  ghost predicate Exploded(t: Tables, i: nat, companyId: string, a: AssemblyTemplate)
    requires i < |t.assemblies|
  {
    var h := t.assemblies[i];
    h == HeaderRow(companyId, h.id, a) && PartsOf(t.parts, companyId, h.id) == PartRows(a.components, Stamp(companyId, h.id))
  }

  ghost predicate FromTemplate(t: Tables, i: nat, companyId: string, assemblies: seq<AssemblyTemplate>)
    requires i < |t.assemblies|
  {
    exists k :: 0 <= k < |assemblies| && Exploded(t, i, companyId, assemblies[k])
  }

  lemma SeedAssemblyExplodes(t: Tables, companyId: string, a: AssemblyTemplate)
    requires IdsInUse(t)
    ensures var s := SeedAssembly(t, companyId, a);
      && IdsInUse(s)
      && (|s.assemblies| > |t.assemblies| ==> |s.assemblies| == |t.assemblies| + 1 && Exploded(s, |t.assemblies|, companyId, a))
      && forall id: nat :: id < t.nextId ==> PartsOf(s.parts, companyId, id) == PartsOf(t.parts, companyId, id)
  {
    if !HasAssembly(t.assemblies, companyId, a.name) {
      var s, more := SeedAssembly(t, companyId, a), PartRows(a.components, Stamp(companyId, t.nextId));
      assert forall i :: 0 <= i < |more| ==> more[i].companyId == companyId && more[i].assemblyId == t.nextId;
      NewPartsOnly(t.parts, more, companyId, t.nextId);
    }
  }

  lemma NewPartsOnly(parts: seq<Part>, more: seq<Part>, companyId: string, newId: nat)
    requires forall i :: 0 <= i < |parts| ==> parts[i].assemblyId < newId
    requires forall i :: 0 <= i < |more| ==> more[i].companyId == companyId && more[i].assemblyId == newId
    ensures PartsOf(parts + more, companyId, newId) == more
    ensures forall id: nat :: id < newId ==> PartsOf(parts + more, companyId, id) == PartsOf(parts, companyId, id)
  {
    PartsOfAppend(parts, more, companyId, newId);
    PartsOfNone(parts, companyId, newId);
    PartsOfAll(more, companyId, newId);
    forall id: nat | id < newId ensures PartsOf(parts + more, companyId, id) == PartsOf(parts, companyId, id) {
      PartsOfAppend(parts, more, companyId, id);
      PartsOfNone(more, companyId, id);
    }
  }

  /** Later inserts do not touch the components of an assembly that is already there. */
  lemma {:induction false} SeedAssembliesKeepParts(t: Tables, companyId: string, assemblies: seq<AssemblyTemplate>)
    requires IdsInUse(t)
    ensures IdsInUse(SeedAssemblies(t, companyId, assemblies))
    ensures forall id: nat :: id < t.nextId ==> PartsOf(SeedAssemblies(t, companyId, assemblies).parts, companyId, id) == PartsOf(t.parts, companyId, id)
    decreases |assemblies|
  {
    if assemblies != [] {
      SeedAssemblyExplodes(t, companyId, assemblies[0]);
      SeedAssembliesKeepParts(SeedAssembly(t, companyId, assemblies[0]), companyId, assemblies[1..]);
    }
  }

  lemma {:induction false} NewAssembliesExplode(t: Tables, companyId: string, assemblies: seq<AssemblyTemplate>, i: nat)
    requires IdsInUse(t) && |t.assemblies| <= i < |SeedAssemblies(t, companyId, assemblies).assemblies|
    ensures FromTemplate(SeedAssemblies(t, companyId, assemblies), i, companyId, assemblies)
    decreases |assemblies|
  {
    var next, s := SeedAssembly(t, companyId, assemblies[0]), SeedAssemblies(t, companyId, assemblies);
    SeedAssemblyExplodes(t, companyId, assemblies[0]);
    SeedAssembliesGrow(next, companyId, assemblies[1..]);
    if i < |next.assemblies| {
      SeedAssembliesKeepParts(next, companyId, assemblies[1..]);
      assert s.assemblies[i] == next.assemblies[i];
      assert Exploded(s, i, companyId, assemblies[0]);
    } else {
      NewAssembliesExplode(next, companyId, assemblies[1..], i);
      var k :| 0 <= k < |assemblies[1..]| && Exploded(s, i, companyId, assemblies[1..][k]);
      assert assemblies[k + 1] == assemblies[1..][k];
    }
  }

  /** The sum that the assembly editor recomputes from the stored components. */
  function Recomputed(parts: seq<Part>): real {
    if parts == [] then 0.0 else Cost(parts[0].quantityPerUnit, parts[0].wastePct, parts[0].unitCost) + Recomputed(parts[1..])
  }

  /** The component's numbers have no more decimals than their columns. */
  predicate Fits(c: PartTemplate) {
    Round4(c.quantityPerUnit) == c.quantityPerUnit && Round4(c.unitCost) == c.unitCost && Round2(c.wastePct) == c.wastePct
  }

  function CostOfPart(c: PartTemplate): real {
    Cost(c.quantityPerUnit, c.wastePct, c.unitCost)
  }

  /** What storing a component in its columns takes from its cost. */
  function LossOf(c: PartTemplate): real {
    CostOfPart(c) - Cost(Round4(c.quantityPerUnit), Round2(c.wastePct), Round4(c.unitCost))
  }

  function Loss(components: seq<PartTemplate>): real {
    if components == [] then 0.0 else LossOf(components[0]) + Loss(components[1..])
  }

  lemma {:induction false} TotalSplits(components: seq<PartTemplate>, parts: seq<Part>, sofar: real)
    requires |parts| == |components|
    requires forall i :: 0 <= i < |parts| ==>
      Cost(parts[i].quantityPerUnit, parts[i].wastePct, parts[i].unitCost) == CostOfPart(components[i]) - LossOf(components[i])
    ensures TemplateTotal(components, sofar) == sofar + Recomputed(parts) + Loss(components)
  {
    if components != [] {
      TotalSplits(components[1..], parts[1..], sofar + CostOfPart(components[0]));
    }
  }

  lemma StoredCosts(components: seq<PartTemplate>, companyId: string, id: nat)
    ensures Recomputed(PartRows(components, Stamp(companyId, id))) == TemplateTotal(components, 0.0) - Loss(components)
  {
    var parts := PartRows(components, Stamp(companyId, id));
    forall i | 0 <= i < |parts|
      ensures Cost(parts[i].quantityPerUnit, parts[i].wastePct, parts[i].unitCost) == CostOfPart(components[i]) - LossOf(components[i])
    {
      assert parts[i] == PartRow(companyId, id, components[i], i);
    }
    TotalSplits(components, parts, 0.0);
  }

  predicate AllFit(components: seq<PartTemplate>) {
    forall i :: 0 <= i < |components| ==> Fits(components[i])
  }

  lemma {:induction false} FittingLoseNothing(components: seq<PartTemplate>)
    requires AllFit(components)
    ensures Loss(components) == 0.0
  {
    if components != [] {
      assert Fits(components[0]);
      FittingLoseNothing(components[1..]);
    }
  }

  /** What rounding the total leaves behind, less what the columns take, stays in the half-step window. */
  predicate LossHidden(components: seq<PartTemplate>) {
    var total := TemplateTotal(components, 0.0);
    HalfStepWindow(total - Round4(total) - Loss(components))
  }

  lemma RateSurvivesIff(components: seq<PartTemplate>, companyId: string, id: nat)
    ensures Round4(TemplateTotal(components, 0.0)) == Round4(Recomputed(PartRows(components, Stamp(companyId, id))))
      <==> LossHidden(components)
    ensures AllFit(components) ==> LossHidden(components)
  {
    var total := TemplateTotal(components, 0.0);
    StoredCosts(components, companyId, id);
    Round4Keeps(total);
    Round4Iff(total - Loss(components), Round4(total));
    if AllFit(components) {
      FittingLoseNothing(components);
      Round4Iff(total, Round4(total));
    }
  }

  /** The rate that recomputing the assembly from its stored components would store. */
  function RecomputedRate(t: Tables, companyId: string, i: nat): real
    requires i < |t.assemblies|
  {
    Round4(Recomputed(PartsOf(t.parts, companyId, t.assemblies[i].id)))
  }

  /** The stored rate is the recomputed one exactly when the columns hide their loss, as they do when the
      numbers of `a` fit them. */
  predicate RateSurvives(t: Tables, companyId: string, i: nat, a: AssemblyTemplate)
    requires i < |t.assemblies|
  {
    (t.assemblies[i].totalRate == RecomputedRate(t, companyId, i) <==> LossHidden(a.components))
    && (AllFit(a.components) ==> LossHidden(a.components))
  }

  /** Every assembly that seeding adds comes from the template: its components are those of a template
      assembly, in order, and no others; and its stored rate is what recomputing it from those components
      would store exactly when the columns hide their loss, as they do when the numbers fit. */
  lemma SeededAssembliesAreComplete(t: Tables, companyId: string, template: Template, includeSample: bool, i: nat)
    requires IdsInUse(t) && |t.assemblies| <= i < |Seed(t, companyId, template, includeSample).assemblies|
    ensures var s := Seed(t, companyId, template, includeSample);
      && IdsInUse(s)
      && FromTemplate(s, i, companyId, template.assemblies)
      && forall k :: 0 <= k < |template.assemblies| && Exploded(s, i, companyId, template.assemblies[k]) ==>
        RateSurvives(s, companyId, i, template.assemblies[k])
  {
    var stamped := WithSample(SeedReference(t, companyId, template), companyId, includeSample);
    var s := Seed(t, companyId, template, includeSample);
    SeedAssembliesKeepParts(stamped, companyId, template.assemblies);
    NewAssembliesExplode(stamped, companyId, template.assemblies, i);
    forall k | 0 <= k < |template.assemblies| && Exploded(s, i, companyId, template.assemblies[k])
      ensures RateSurvives(s, companyId, i, template.assemblies[k])
    {
      RateSurvivesIff(template.assemblies[k].components, companyId, s.assemblies[i].id);
    }
  }

  /** A template assembly with one component: two units at half a ten-thousandth each. */
  function FineAssembly(c: PartTemplate): AssemblyTemplate {
    AssemblyTemplate("S", "A", "", "ea", [c])
  }

  lemma FineNumbers(c: PartTemplate, companyId: string, id: nat)
    requires c.quantityPerUnit == 2.0 && c.unitCost == 0.00005 && c.wastePct == 0.0
    ensures HeaderRow(companyId, id, FineAssembly(c)).totalRate == 0.0001
    ensures Round4(Recomputed(PartRows([c], Stamp(companyId, id)))) == 0.0002
  {
    assert [c][1..] == [];
    assert TemplateTotal([c], 0.0) == TemplateTotal([], 0.0001) == 0.0001;
    WholeFloor(1, 0.0001 * 10000.0);
    Round4Fixed(0.0001);
    var parts := PartRows([c], Stamp(companyId, id));
    WholeFloor(20000, 2.0 * 10000.0);
    Round4Fixed(2.0);
    WholeFloor(0, 0.0 * 100.0);
    Round2Fixed(0.0);
    assert Round4(0.00005) == 0.0001;
    assert parts[0].unitCost == 0.0001 && parts[0].quantityPerUnit == 2.0 && parts[0].wastePct == 0.0;
    assert parts[1..] == [];
    assert Recomputed(parts) == 0.0002;
    WholeFloor(2, 0.0002 * 10000.0);
    Round4Fixed(0.0002);
  }

  /** Seeding such an assembly stores 0.0001, recomputing it from what was seeded stores 0.0002. */
  lemma FineCostsDrift(t: Tables, companyId: string, template: Template, c: PartTemplate)
    requires IdsInUse(t) && !HasAssembly(t.assemblies, companyId, "A")
    requires c.quantityPerUnit == 2.0 && c.unitCost == 0.00005 && c.wastePct == 0.0 && template.assemblies == [FineAssembly(c)]
    ensures var s, i := Seed(t, companyId, template, false), |t.assemblies|;
      |s.assemblies| == i + 1 && s.assemblies[i].totalRate == 0.0001 && RecomputedRate(s, companyId, i) == 0.0002
  {
    var stamped := SeedReference(t, companyId, template);
    var s := SeedAssembly(stamped, companyId, FineAssembly(c));
    assert template.assemblies[1..] == [];
    assert Seed(t, companyId, template, false) == SeedAssemblies(s, companyId, []) == s;
    SeedAssemblyExplodes(stamped, companyId, FineAssembly(c));
    assert Exploded(s, |t.assemblies|, companyId, FineAssembly(c));
    FineNumbers(c, companyId, s.assemblies[|t.assemblies|].id);
  }
}
