/** Tenant seeding (apps/api/src/onboarding.ts): the tables a new company is stamped with, and the
    guards that make a second run harmless. */
module Onboarding {
  import opened Basics
  import opened Assembly

  // ---------- tables ----------

  datatype Division = Division(companyId: string, code: string, name: string, sortOrder: int)
  datatype ServiceItem = ServiceItem(companyId: string, code: string, name: string, category: string, unit: string,
      defaultRate: Option<real>)
  datatype ItemDivision = ItemDivision(companyId: string, itemCode: string, divisionCode: string)
  datatype PricingProfile = PricingProfile(companyId: string, name: string, isDefault: bool, template: string, deleted: bool)
  datatype BonusRule = BonusRule(companyId: string, name: string, deleted: bool)
  datatype YardLocation = YardLocation(companyId: string, name: string, isDefault: bool, deleted: bool)
  datatype Customer = Customer(companyId: string, name: string, source: string)
  datatype AssemblyRow = AssemblyRow(
    id: nat, companyId: string, itemCode: string, name: string, description: string, totalRate: real, unit: string, deleted: bool)
  datatype Part = Part(
    companyId: string, assemblyId: nat, kind: Kind, name: string, quantityPerUnit: real, unit: string, unitCost: real, wastePct: real,
    sortOrder: nat)

  /** `nextId` stands for the generated ids: every id in use is below it. */
  datatype Tables = Tables(
    divisions: seq<Division>, items: seq<ServiceItem>, itemDivisions: seq<ItemDivision>, profiles: seq<PricingProfile>,
    rules: seq<BonusRule>, locations: seq<YardLocation>, customers: seq<Customer>, assemblies: seq<AssemblyRow>, parts: seq<Part>,
    nextId: nat)

  predicate IdsInUse(t: Tables) {
    && (forall i :: 0 <= i < |t.assemblies| ==> t.assemblies[i].id < t.nextId)
    && (forall i :: 0 <= i < |t.parts| ==> t.parts[i].assemblyId < t.nextId)
  }

  // ---------- templates ----------

  datatype DivisionTemplate = DivisionTemplate(code: string, name: string, sortOrder: int)
  datatype ItemTemplate = ItemTemplate(
    code: string, name: string, category: string, unit: string, defaultRate: Option<real>, defaultDivisionCode: string)
  datatype PartTemplate = PartTemplate(kind: Kind, name: string, quantityPerUnit: real, unit: string, unitCost: real, wastePct: real)
  datatype AssemblyTemplate = AssemblyTemplate(
    serviceItemCode: string, name: string, description: string, unit: string, components: seq<PartTemplate>)
  datatype Template = Template(
    slug: string, divisions: seq<DivisionTemplate>, items: seq<ItemTemplate>, assemblies: seq<AssemblyTemplate>)

  // ---------- guarded inserts ----------

  predicate Taken<T, K(==)>(rows: seq<T>, k: K, key: T -> K, live: T -> bool) {
    exists i :: 0 <= i < |rows| && live(rows[i]) && key(rows[i]) == k
  }

  /** `on conflict do nothing`, or the `where not exists` in front of an insert. */
  function InsertUnless<T, K(==)>(rows: seq<T>, row: T, key: T -> K, live: T -> bool): seq<T> {
    if Taken(rows, key(row), key, live) then rows else rows + [row]
  }

  lemma InsertTakes<T, K>(rows: seq<T>, row: T, key: T -> K, live: T -> bool)
    requires live(row)
    ensures Taken(InsertUnless(rows, row, key, live), key(row), key, live)
  {
    if !Taken(rows, key(row), key, live) {
      assert (rows + [row])[|rows|] == row;
    }
  }

  /** No two live rows share a key. */
  ghost predicate Unique<T, K>(rows: seq<T>, key: T -> K, live: T -> bool) {
    forall i, j :: 0 <= i < j < |rows| && live(rows[i]) && live(rows[j]) ==> key(rows[i]) != key(rows[j])
  }

  function SeedRows<T, K(==)>(rows: seq<T>, more: seq<T>, key: T -> K, live: T -> bool): seq<T>
    decreases |more|
  {
    if more == [] then rows else SeedRows(InsertUnless(rows, more[0], key, live), more[1..], key, live)
  }

  function Always<T>(): T -> bool {
    (row: T) => true
  }

  function DivisionKey(): Division -> (string, string) {
    (d: Division) => (d.companyId, d.code)
  }

  function ItemKey(): ServiceItem -> (string, string) {
    (i: ServiceItem) => (i.companyId, i.code)
  }

  function LinkKey(): ItemDivision -> ItemDivision {
    (l: ItemDivision) => l
  }

  function ProfileKey(): PricingProfile -> (string, string) {
    (p: PricingProfile) => (p.companyId, p.name)
  }

  function LiveProfile(): PricingProfile -> bool {
    (p: PricingProfile) => !p.deleted
  }

  function RuleKey(): BonusRule -> (string, string) {
    (r: BonusRule) => (r.companyId, r.name)
  }

  function LiveRule(): BonusRule -> bool {
    (r: BonusRule) => !r.deleted
  }

  function LocationKey(): YardLocation -> string {
    (l: YardLocation) => l.companyId
  }

  function LiveDefault(): YardLocation -> bool {
    (l: YardLocation) => l.isDefault && !l.deleted
  }

  function DivisionRow(companyId: string, d: DivisionTemplate): Division {
    Division(companyId, d.code, d.name, d.sortOrder)
  }

  function ItemRow(companyId: string, i: ItemTemplate): ServiceItem {
    ServiceItem(companyId, i.code, i.name, i.category, i.unit, i.defaultRate)
  }

  function LinkRow(companyId: string, i: ItemTemplate): ItemDivision {
    ItemDivision(companyId, i.code, i.defaultDivisionCode)
  }

  function DivisionRows(companyId: string, ds: seq<DivisionTemplate>): seq<Division> {
    seq(|ds|, i requires 0 <= i < |ds| => DivisionRow(companyId, ds[i]))
  }

  function ItemRows(companyId: string, items: seq<ItemTemplate>): seq<ServiceItem> {
    seq(|items|, i requires 0 <= i < |items| => ItemRow(companyId, items[i]))
  }

  function LinkRows(companyId: string, items: seq<ItemTemplate>): seq<ItemDivision> {
    seq(|items|, i requires 0 <= i < |items| => LinkRow(companyId, items[i]))
  }

  function SampleCustomer(companyId: string): Customer {
    Customer(companyId, "Sample Customer", "seed")
  }

  // ---------- assemblies ----------

  function Cost(quantityPerUnit: real, wastePct: real, unitCost: real): real {
    quantityPerUnit * (1.0 + wastePct / 100.0) * unitCost
  }

  /** The `reduce` over a template's components. */
  function TemplateTotal(components: seq<PartTemplate>, sofar: real): real {
    if components == [] then sofar
    else TemplateTotal(components[1..], sofar + Cost(components[0].quantityPerUnit, components[0].wastePct, components[0].unitCost))
  }

  /** A component as its columns keep it: four decimals, two for the waste. */
  function PartRow(companyId: string, assemblyId: nat, c: PartTemplate, sortOrder: nat): Part {
    Part(companyId, assemblyId, c.kind, c.name, Round4(c.quantityPerUnit), c.unit, Round4(c.unitCost), Round2(c.wastePct), sortOrder)
  }

  /** Stamps the components of one new assembly, as a function of component and position. */
  function Stamp(companyId: string, assemblyId: nat): (PartTemplate, nat) -> Part {
    (c: PartTemplate, sortOrder: nat) => PartRow(companyId, assemblyId, c, sortOrder)
  }

  function PartRows(components: seq<PartTemplate>, stamp: (PartTemplate, nat) -> Part): seq<Part> {
    seq(|components|, i requires 0 <= i < |components| => stamp(components[i], i))
  }

  function HeaderRow(companyId: string, id: nat, a: AssemblyTemplate): AssemblyRow {
    AssemblyRow(id, companyId, a.serviceItemCode, a.name, a.description, Round4(TemplateTotal(a.components, 0.0)), a.unit, false)
  }

  predicate HasAssembly(assemblies: seq<AssemblyRow>, companyId: string, name: string) {
    exists i :: 0 <= i < |assemblies| && assemblies[i].companyId == companyId && assemblies[i].name == name && !assemblies[i].deleted
  }

  function SeedAssembly(t: Tables, companyId: string, a: AssemblyTemplate): Tables {
    if HasAssembly(t.assemblies, companyId, a.name) then t
    else
      t.(assemblies := t.assemblies + [HeaderRow(companyId, t.nextId, a)],
         parts := t.parts + PartRows(a.components, Stamp(companyId, t.nextId)),
         nextId := t.nextId + 1)
  }

  function SeedAssemblies(t: Tables, companyId: string, assemblies: seq<AssemblyTemplate>): Tables
    decreases |assemblies|
  {
    if assemblies == [] then t else SeedAssemblies(SeedAssembly(t, companyId, assemblies[0]), companyId, assemblies[1..])
  }

  // ---------- a company ----------

  function SeedReference(t: Tables, companyId: string, template: Template): Tables {
    SinglesSeeded(
      t.(divisions := SeedRows(t.divisions, DivisionRows(companyId, template.divisions), DivisionKey(), Always()),
         items := SeedRows(t.items, ItemRows(companyId, template.items), ItemKey(), Always()),
         itemDivisions := SeedRows(t.itemDivisions, LinkRows(companyId, template.items), LinkKey(), Always())),
      companyId, template.slug)
  }

  function WithSample(t: Tables, companyId: string, includeSample: bool): Tables {
    if includeSample then t.(customers := t.customers + [SampleCustomer(companyId)]) else t
  }

  function Seed(t: Tables, companyId: string, template: Template, includeSample: bool): Tables {
    SeedAssemblies(WithSample(SeedReference(t, companyId, template), companyId, includeSample), companyId, template.assemblies)
  }

  // ---------- the inserts, one after the other ----------

  /** What the three guarded inserts come to. */
  function SinglesSeeded(t: Tables, companyId: string, slug: string): Tables {
    t.(profiles := InsertUnless(t.profiles, PricingProfile(companyId, "Default", true, slug, false), ProfileKey(), LiveProfile()),
       rules := InsertUnless(t.rules, BonusRule(companyId, "Default Margin Bonus", false), RuleKey(), LiveRule()),
       locations := InsertUnless(t.locations, YardLocation(companyId, "Yard", true, false), LocationKey(), LiveDefault()))
  }

  predicate HasSingles(t: Tables, companyId: string) {
    && Taken(t.profiles, (companyId, "Default"), ProfileKey(), LiveProfile())
    && Taken(t.rules, (companyId, "Default Margin Bonus"), RuleKey(), LiveRule())
    && Taken(t.locations, companyId, LocationKey(), LiveDefault())
  }

  lemma SinglesThere(t: Tables, companyId: string, slug: string)
    ensures HasSingles(SinglesSeeded(t, companyId, slug), companyId)
    ensures var s := SinglesSeeded(t, companyId, slug);
      Unique(t.locations, LocationKey(), LiveDefault()) ==> Unique(s.locations, LocationKey(), LiveDefault())
  {
    InsertTakes(t.profiles, PricingProfile(companyId, "Default", true, slug, false), ProfileKey(), LiveProfile());
    InsertTakes(t.rules, BonusRule(companyId, "Default Margin Bonus", false), RuleKey(), LiveRule());
    InsertTakes(t.locations, YardLocation(companyId, "Yard", true, false), LocationKey(), LiveDefault());
  }

  class Database {
    var tables: Tables

    constructor (tables: Tables)
      ensures this.tables == tables
    {
      this.tables := tables;
    }

    method SeedDivisions(companyId: string, divisions: seq<DivisionTemplate>)
      modifies this
      ensures tables
        == old(tables).(divisions := SeedRows(old(tables).divisions, DivisionRows(companyId, divisions), DivisionKey(), Always()))
    {
      ghost var rows := DivisionRows(companyId, divisions);
      for i := 0 to |divisions|
        invariant tables == old(tables).(divisions := tables.divisions)
        invariant SeedRows(tables.divisions, rows[i..], DivisionKey(), Always()) == SeedRows(old(tables).divisions, rows,
            DivisionKey(), Always())
      {
        tables := tables.(divisions := InsertUnless(tables.divisions, DivisionRow(companyId, divisions[i]), DivisionKey(), Always()));
      }
      assert rows[|divisions|..] == [];
    }

    method SeedItems(companyId: string, items: seq<ItemTemplate>)
      modifies this
      ensures tables == old(tables).(
        items := SeedRows(old(tables).items, ItemRows(companyId, items), ItemKey(), Always()),
        itemDivisions := SeedRows(old(tables).itemDivisions, LinkRows(companyId, items), LinkKey(), Always()))
    {
      ghost var rows, links := ItemRows(companyId, items), LinkRows(companyId, items);
      for i := 0 to |items|
        invariant tables == old(tables).(items := tables.items, itemDivisions := tables.itemDivisions)
        invariant SeedRows(tables.items, rows[i..], ItemKey(), Always()) == SeedRows(old(tables).items, rows, ItemKey(), Always())
        invariant SeedRows(tables.itemDivisions, links[i..], LinkKey(), Always())
          == SeedRows(old(tables).itemDivisions, links, LinkKey(), Always())
      {
        tables := tables.(items := InsertUnless(tables.items, ItemRow(companyId, items[i]), ItemKey(), Always()));
        tables := tables.(itemDivisions := InsertUnless(tables.itemDivisions, LinkRow(companyId, items[i]), LinkKey(), Always()));
      }
      assert rows[|items|..] == [] && links[|items|..] == [];
    }

    method InsertParts(components: seq<PartTemplate>, stamp: (PartTemplate, nat) -> Part)
      modifies this
      ensures tables == old(tables).(parts := old(tables).parts + PartRows(components, stamp))
    {
      ghost var rows := PartRows(components, stamp);
      var sortOrder := 0;
      for i := 0 to |components|
        invariant sortOrder == i
        invariant tables == old(tables).(parts := old(tables).parts + rows[..i])
      {
        tables := tables.(parts := tables.parts + [stamp(components[i], sortOrder)]);
        sortOrder := sortOrder + 1;
      }
      assert rows[..|components|] == rows;
    }

    method Total(components: seq<PartTemplate>) returns (total: real)
      ensures total == TemplateTotal(components, 0.0)
    {
      total := 0.0;
      for i := 0 to |components|
        invariant TemplateTotal(components[i..], total) == TemplateTotal(components, 0.0)
      {
        var c := components[i];
        assert components[i..][0] == c && components[i..][1..] == components[i + 1..];
        total := total + Cost(c.quantityPerUnit, c.wastePct, c.unitCost);
      }
    }

    method SeedOneAssembly(companyId: string, a: AssemblyTemplate)
      modifies this
      ensures tables == SeedAssembly(old(tables), companyId, a)
    {
      var totalRate := Total(a.components);
      if HasAssembly(tables.assemblies, companyId, a.name) {
        return;
      }
      var id := tables.nextId;
      var header := AssemblyRow(id, companyId, a.serviceItemCode, a.name, a.description, Round4(totalRate), a.unit, false);
      tables := tables.(assemblies := tables.assemblies + [header], nextId := id + 1);
      InsertParts(a.components, Stamp(companyId, id));
    }

    method SeedAssemblyTemplates(companyId: string, assemblies: seq<AssemblyTemplate>)
      modifies this
      ensures tables == SeedAssemblies(old(tables), companyId, assemblies)
    {
      for i := 0 to |assemblies|
        invariant SeedAssemblies(tables, companyId, assemblies[i..]) == SeedAssemblies(old(tables), companyId, assemblies)
      {
        SeedOneAssembly(companyId, assemblies[i]);
      }
    }

    method SeedCompanyDefaults(companyId: string, template: Template, includeSample: bool)
      modifies this
      ensures tables == Seed(old(tables), companyId, template, includeSample)
    {
      SeedDivisions(companyId, template.divisions);
      SeedItems(companyId, template.items);
      SeedSingles(companyId, template.slug);
      assert tables == SeedReference(old(tables), companyId, template);
      if includeSample {
        tables := tables.(customers := tables.customers + [SampleCustomer(companyId)]);
      }
      SeedAssemblyTemplates(companyId, template.assemblies);
    }

    /** The three single rows, each unless a live one is there: afterwards the company has a live profile
        and bonus rule of these names and a default yard, rows that were there stay as they were, a
        second default yard never appears, and a company that has all three is left alone. */
    method SeedSingles(companyId: string, slug: string)
      modifies this
      ensures tables == SinglesSeeded(old(tables), companyId, slug)
      ensures HasSingles(tables, companyId)
      ensures old(tables).profiles <= tables.profiles && old(tables).rules <= tables.rules && old(tables).locations <= tables.locations
      ensures Unique(old(tables).locations, LocationKey(), LiveDefault()) ==> Unique(tables.locations, LocationKey(), LiveDefault())
      ensures HasSingles(old(tables), companyId) ==> tables == old(tables)
    {
      if !Taken(tables.profiles, (companyId, "Default"), ProfileKey(), LiveProfile()) {
        tables := tables.(profiles := tables.profiles + [PricingProfile(companyId, "Default", true, slug, false)]);
      }
      if !Taken(tables.rules, (companyId, "Default Margin Bonus"), RuleKey(), LiveRule()) {
        tables := tables.(rules := tables.rules + [BonusRule(companyId, "Default Margin Bonus", false)]);
      }
      if !Taken(tables.locations, companyId, LocationKey(), LiveDefault()) {
        tables := tables.(locations := tables.locations + [YardLocation(companyId, "Yard", true, false)]);
      }
      SinglesThere(old(tables), companyId, slug);
    }
  }
}
