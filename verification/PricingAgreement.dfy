/** Batch pricing against single pricing. */
module PricingAgreement {
  import opened Basics
  import opened Pricing

  // ---------- what the tables guarantee ----------

  /** The unique key (company, owner, code) of an override table. */
  predicate UniqueOverrides(table: seq<Override>) {
    forall i, j :: 0 <= i < j < |table| ==>
      !(table[i].company == table[j].company && table[i].owner == table[j].owner && table[i].code == table[j].code)
  }

  /** The unique key (company, code) of the service items. */
  predicate UniqueItems(items: seq<ServiceItem>) {
    forall i, j :: 0 <= i < j < |items| ==> !(items[i].company == items[j].company && items[i].code == items[j].code)
  }

  predicate UniqueKeys(t: Tables) {
    UniqueOverrides(t.projectOverrides) && UniqueOverrides(t.customerOverrides) && UniqueOverrides(t.companyOverrides)
    && UniqueItems(t.serviceItems)
  }

  predicate Visible(item: LibraryItem, company: string) {
    (item.company == Some(company) || item.company.None?) && !item.deleted
  }

  predicate Tied(a: LibraryItem, b: LibraryItem) {
    (a.company.None? <==> b.company.None?) && a.updatedAt == b.updatedAt
  }

  /** No two library rows of one lower-cased code that a company sees are ordered alike. */
  predicate NoTies(library: seq<LibraryItem>, company: string, lower: string -> string) {
    forall i, j :: 0 <= i < j < |library| && Visible(library[i], company) && Visible(library[j], company) ==>
      lower(library[i].code) == lower(library[j].code) ==> !Tied(library[i], library[j])
  }

  // ---------- layers for one code and for many ----------

  lemma {:induction false} OverrideMembers(table: seq<Override>, p: int, source: Source, company: string, owner: string,
      codes: set<string>, c: string)
    requires c in codes
    ensures forall r :: r in OverrideRows(table, p, source, company, owner, codes) && r.code == c <==> r in OverrideRows(table, p, source, company, owner, {c})
    ensures forall r :: r in OverrideRows(table, p, source, company, owner, codes) ==> r.priority == p && r.code in codes
  {
    if table != [] {
      OverrideMembers(table[1..], p, source, company, owner, codes, c);
    }
  }

  lemma {:induction false} OverrideUnique(table: seq<Override>, p: int, source: Source, company: string, owner: string,
      c: string, a: ChainRow, b: ChainRow)
    requires UniqueOverrides(table)
    requires a in OverrideRows(table, p, source, company, owner, {c}) && b in OverrideRows(table, p, source, company, owner, {c})
    ensures a == b
  {
    var rest := OverrideRows(table[1..], p, source, company, owner, {c});
    if OverrideHit(table[0], company, owner, {c}) {
      NoOverride(table[1..], p, source, company, owner, c);
    } else {
      OverrideUnique(table[1..], p, source, company, owner, c, a, b);
    }
  }

  lemma {:induction false} NoOverride(table: seq<Override>, p: int, source: Source, company: string, owner: string, c: string)
    requires forall i :: 0 <= i < |table| ==> !(table[i].company == company && table[i].owner == owner && table[i].code == c)
    ensures OverrideRows(table, p, source, company, owner, {c}) == []
  {
    if table != [] {
      NoOverride(table[1..], p, source, company, owner, c);
    }
  }

  function QboRow(item: ServiceItem): ChainRow {
    ChainRow(4, QboSource, item.id, item.defaultRate, item.unit, item.code)
  }

  /** However many mappings join, the joined row only depends on the item. */
  lemma {:induction false} JoinedMembers(mappings: seq<Mapping>, item: ServiceItem)
    ensures forall r :: r in JoinedRows(mappings, item) ==> r == QboRow(item)
  {
    if mappings != [] {
      JoinedMembers(mappings[1..], item);
    }
  }

  lemma {:induction false} ItemMembers(items: seq<ServiceItem>, mappings: seq<Mapping>, company: string, codes: set<string>, c: string)
    requires c in codes
    ensures forall r :: r in QboRows(items, mappings, company, codes) && r.code == c <==> r in QboRows(items, mappings, company, {c})
    ensures forall r :: r in QboRows(items, mappings, company, codes) ==> r.priority == 4 && r.code in codes
    ensures forall r :: r in FallbackRows(items, company, codes) && r.code == c <==> r in FallbackRows(items, company, {c})
    ensures forall r :: r in FallbackRows(items, company, codes) ==> r.priority == 5 && r.code in codes
  {
    if items != [] {
      JoinedMembers(mappings, items[0]);
      ItemMembers(items[1..], mappings, company, codes, c);
    }
  }

  lemma {:induction false} NoItem(items: seq<ServiceItem>, mappings: seq<Mapping>, company: string, c: string)
    requires forall i :: 0 <= i < |items| ==> !(items[i].company == company && items[i].code == c)
    ensures QboRows(items, mappings, company, {c}) == [] && FallbackRows(items, company, {c}) == []
  {
    if items != [] {
      NoItem(items[1..], mappings, company, c);
    }
  }

  lemma {:induction false} ItemUnique(items: seq<ServiceItem>, mappings: seq<Mapping>, company: string, c: string, a: ChainRow, b: ChainRow)
    requires UniqueItems(items)
    requires (a in QboRows(items, mappings, company, {c}) && b in QboRows(items, mappings, company, {c}))
      || (a in FallbackRows(items, company, {c}) && b in FallbackRows(items, company, {c}))
    ensures a == b
  {
    if ItemHit(items[0], company, {c}) {
      NoItem(items[1..], mappings, company, c);
      JoinedMembers(mappings, items[0]);
    } else {
      ItemUnique(items[1..], mappings, company, c, a, b);
    }
  }

  lemma UpperMembers(t: Tables, scope: Scope, codes: set<string>, c: string)
    requires c in codes
    ensures forall r :: r in UpperLayers(t, scope, codes) && r.code == c <==> r in UpperLayers(t, scope, {c})
    ensures forall r :: r in UpperLayers(t, scope, codes) ==> r.priority <= 5 && r.code in codes
  {
    OverrideMembers(t.projectOverrides, 1, ProjectSource, scope.company, scope.project, codes, c);
    if scope.customer.Some? {
      OverrideMembers(t.customerOverrides, 2, CustomerSource, scope.company, scope.customer.value, codes, c);
    }
    OverrideMembers(t.companyOverrides, 3, CompanySource, scope.company, "", codes, c);
    ItemMembers(t.serviceItems, t.mappings, scope.company, codes, c);
  }

  /** With the unique keys, two upper-layer rows of a code with the same priority are the same. */
  lemma UpperUnique(t: Tables, scope: Scope, c: string, a: ChainRow, b: ChainRow)
    requires UniqueKeys(t) && a.priority == b.priority
    requires a in UpperLayers(t, scope, {c}) && b in UpperLayers(t, scope, {c})
    ensures a == b
  {
    OverrideMembers(t.projectOverrides, 1, ProjectSource, scope.company, scope.project, {c}, c);
    if scope.customer.Some? {
      OverrideMembers(t.customerOverrides, 2, CustomerSource, scope.company, scope.customer.value, {c}, c);
    }
    OverrideMembers(t.companyOverrides, 3, CompanySource, scope.company, "", {c}, c);
    ItemMembers(t.serviceItems, t.mappings, scope.company, {c}, c);
    if a.priority == 1 {
      OverrideUnique(t.projectOverrides, 1, ProjectSource, scope.company, scope.project, c, a, b);
    } else if a.priority == 2 {
      OverrideUnique(t.customerOverrides, 2, CustomerSource, scope.company, scope.customer.value, c, a, b);
    } else if a.priority == 3 {
      OverrideUnique(t.companyOverrides, 3, CompanySource, scope.company, "", c, a, b);
    } else {
      ItemUnique(t.serviceItems, t.mappings, scope.company, c, a, b);
    }
  }

  lemma {:induction false} HitMembers(library: seq<LibraryItem>, company: string, codes: set<string>)
    ensures forall x :: x in LibraryHits(library, company, codes) <==> x in library && LibraryHit(x, company, codes)
  {
    if library != [] {
      HitMembers(library[1..], company, codes);
    }
  }

  /** Rows that neither sorts before the other are the same row. */
  lemma NotBeforeMeansSame(library: seq<LibraryItem>, company: string, lower: string -> string, a: LibraryItem, b: LibraryItem)
    requires NoTies(library, company, lower) && a in library && b in library
    requires Visible(a, company) && Visible(b, company) && lower(a.code) == lower(b.code)
    requires !Before(LibraryOrder(), a, b) && !Before(LibraryOrder(), b, a)
    ensures a == b
  {
    var i :| 0 <= i < |library| && library[i] == a;
    var j :| 0 <= j < |library| && library[j] == b;
    assert Tied(library[i], library[j]) && Tied(library[j], library[i]);
  }

  lemma LibraryRowMembers(items: seq<LibraryItem>, r: ChainRow)
    ensures r in LibraryRows(items) <==> exists i :: 0 <= i < |items| && r == LibraryRow(items[i])
  {
    if r in LibraryRows(items) {
      var i :| 0 <= i < |LibraryRows(items)| && LibraryRows(items)[i] == r;
      assert r == LibraryRow(items[i]);
    }
    if i :| 0 <= i < |items| && r == LibraryRow(items[i]) {
      assert LibraryRows(items)[i] == r;
    }
  }

  // ---------- the two queries for one code ----------

  /** The single query is decided by the upper layers when they have a row, and by the best library
      row otherwise. */
  lemma SingleDecided(t: Tables, scope: Scope, c: string, library: seq<LibraryItem>, winner: seq<ChainRow>)
    requires SingleRows(t, scope, c, library, winner)
    ensures var upper, hits := UpperLayers(t, scope, {c}), LibraryHits(t.library, scope.company, {c});
      if upper != [] then
        winner != [] && winner[0] in upper && forall r :: r in upper ==> winner[0].priority <= r.priority
      else if hits != [] then
        winner != [] && exists best :: Leads(best, hits, Same<LibraryItem>(), LibraryOrder()) && winner[0] == LibraryRow(best)
      else winner == []
  {
    UpperMembers(t, scope, {c}, c);
    DecidedBy(UpperLayers(t, scope, {c}), LibraryHits(t.library, scope.company, {c}), library, winner);
  }

  lemma DecidedBy(upper: seq<ChainRow>, hits: seq<LibraryItem>, library: seq<LibraryItem>, winner: seq<ChainRow>)
    requires FirstOfEach(library, hits, Same<LibraryItem>(), LibraryOrder())
    requires FirstOfEach(winner, upper + LibraryRows(library), Same<ChainRow>(), ByPriority())
    requires forall r :: r in upper ==> r.priority <= 5
    ensures
      if upper != [] then
        winner != [] && winner[0] in upper && forall r :: r in upper ==> winner[0].priority <= r.priority
      else if hits != [] then
        winner != [] && exists best :: Leads(best, hits, Same<LibraryItem>(), LibraryOrder()) && winner[0] == LibraryRow(best)
      else winner == []
  {
    var rows := LibraryRows(library);
    BestRow(winner, upper + rows);
    BestItem(library, hits);
    if upper != [] {
      assert upper[0] in upper + rows;
      assert forall r :: r in rows ==> r.priority == 6;
    } else if hits != [] {
      assert upper + rows == rows && |rows| == |library|;
      RowOfItem(library, winner[0]);
    } else {
      assert rows == [];
    }
  }

  lemma RowOfItem(library: seq<LibraryItem>, r: ChainRow)
    requires r in LibraryRows(library)
    ensures exists x :: x in library && r == LibraryRow(x)
  {
    LibraryRowMembers(library, r);
    var i :| 0 <= i < |library| && r == LibraryRow(library[i]);
    assert library[i] in library;
  }

  lemma BestRow(winner: seq<ChainRow>, all: seq<ChainRow>)
    requires FirstOfEach(winner, all, Same<ChainRow>(), ByPriority())
    ensures all == [] <==> winner == []
    ensures winner != [] ==> winner[0] in all && forall r :: r in all ==> winner[0].priority <= r.priority
  {
    if winner != [] {
      assert winner[0] in winner;
      forall r | r in all ensures winner[0].priority <= r.priority {
        assert Same<ChainRow>()(r) == Same<ChainRow>()(winner[0]) && !Before(ByPriority(), r, winner[0]);
      }
    }
    if all != [] {
      assert all[0] in all && Represented(winner, Same<ChainRow>(), Same<ChainRow>()(all[0]));
    }
  }

  lemma BestItem(library: seq<LibraryItem>, hits: seq<LibraryItem>)
    requires FirstOfEach(library, hits, Same<LibraryItem>(), LibraryOrder())
    ensures hits == [] <==> library == []
    ensures forall x :: x in library ==> Leads(x, hits, Same<LibraryItem>(), LibraryOrder())
  {
    if library != [] {
      assert library[0] in library;
    }
    if hits != [] {
      assert hits[0] in hits && Represented(library, Same<LibraryItem>(), Same<LibraryItem>()(hits[0]));
    }
  }

  /** The batch query, seen from one requested code: the upper layers decide when they have a row;
      otherwise the code is priced exactly when it owns the row chosen for its lower case. */
  lemma BatchDecided(t: Tables, scope: Scope, codes: set<string>, lower: string -> string, c: string,
      library: seq<LibraryItem>, winners: seq<ChainRow>, result: map<string, Resolution>)
    requires c in codes && BatchRows(t, scope, codes, lower, library, winners) && FilledFrom(winners, result)
    ensures var upper := UpperLayers(t, scope, {c});
      if upper != [] then
        c in result && exists w :: w in upper && result[c] == Priced(w) && forall r :: r in upper ==> w.priority <= r.priority
      else
        (c in result <==> exists i :: 0 <= i < |library| && library[i].code == c)
        && (c in result ==> exists i :: 0 <= i < |library| && library[i].code == c && result[c] == Priced(LibraryRow(library[i])))
  {
    var upper, many := UpperLayers(t, scope, {c}), UpperLayers(t, scope, codes);
    var all := many + LibraryRows(library);
    UpperMembers(t, scope, codes, c);
    if upper != [] {
      assert upper[0] in all && Represented(winners, CodeOf(), CodeOf()(upper[0]));
      UpperCodes(t, scope, c, upper[0]);
      var i :| 0 <= i < |winners| && CodeOf()(winners[i]) == c;
      var w := winners[i];
      assert w in winners && Leads(w, all, CodeOf(), ByPriority());
      LibraryRowMembers(library, w);
      assert !Before(ByPriority(), upper[0], w);
      assert w in many && w in upper;
      forall r | r in upper ensures w.priority <= r.priority {
        UpperCodes(t, scope, c, r);
        assert r in all && !Before(ByPriority(), r, w);
      }
    } else {
      if c in result {
        var i :| 0 <= i < |winners| && winners[i].code == c;
        assert winners[i] in winners && Leads(winners[i], all, CodeOf(), ByPriority());
        assert winners[i] in LibraryRows(library);
        LibraryRowMembers(library, winners[i]);
      }
      if i :| 0 <= i < |library| && library[i].code == c {
        assert LibraryRows(library)[i] in all;
        assert Represented(winners, CodeOf(), CodeOf()(LibraryRows(library)[i]));
        var k :| 0 <= k < |winners| && CodeOf()(winners[k]) == c;
        assert winners[k].code == c;
      }
    }
  }

  lemma UpperCodes(t: Tables, scope: Scope, c: string, r: ChainRow)
    requires r in UpperLayers(t, scope, {c})
    ensures r.code == c
  {
    UpperMembers(t, scope, {c}, c);
  }

  // ---------- agreement ----------

  predicate Agree(c: string, single: Result<Resolution, PricingError>, batch: map<string, Resolution>) {
    if single.Ok? then c in batch && batch[c] == single.value else c !in batch
  }

  /** Another requested code with the same lower case owns a library row that sorts before every
      library row of this one. */
  ghost predicate Shadowed(t: Tables, scope: Scope, codes: set<string>, lower: string -> string, c: string) {
    exists y :: y in LibraryHits(t.library, scope.company, codes) && Shadows(t, scope, lower, c, y)
  }

  ghost predicate Shadows(t: Tables, scope: Scope, lower: string -> string, c: string, y: LibraryItem) {
    lower(y.code) == lower(c) && y.code != c
    && forall x :: x in LibraryHits(t.library, scope.company, {c}) ==> Before(LibraryOrder(), y, x)
  }

  lemma LibraryAgreement(t: Tables, scope: Scope, codes: set<string>, lower: string -> string, c: string, best: LibraryItem,
      library: seq<LibraryItem>)
    requires c in codes && NoTies(t.library, scope.company, lower)
    requires Leads(best, LibraryHits(t.library, scope.company, {c}), Same<LibraryItem>(), LibraryOrder())
    requires FirstOfEach(library, LibraryHits(t.library, scope.company, codes), LowerCode(lower), LibraryOrder())
    ensures (exists i :: 0 <= i < |library| && library[i].code == c) <==> !Shadowed(t, scope, codes, lower, c)
    ensures forall i :: 0 <= i < |library| && library[i].code == c ==> library[i] == best
  {
    var hits, mine := LibraryHits(t.library, scope.company, codes), LibraryHits(t.library, scope.company, {c});
    HitMembers(t.library, scope.company, codes);
    HitMembers(t.library, scope.company, {c});
    assert best in hits && best.code == c;
    assert Represented(library, LowerCode(lower), LowerCode(lower)(best));
    var k :| 0 <= k < |library| && LowerCode(lower)(library[k]) == lower(c);
    var z := library[k];
    assert z in library && Leads(z, hits, LowerCode(lower), LibraryOrder());
    forall i | 0 <= i < |library| && library[i].code == c ensures i == k {
      assert LowerCode(lower)(library[i]) == LowerCode(lower)(library[k]);
    }
    assert forall x :: x in mine ==> Same<LibraryItem>()(x) == Same<LibraryItem>()(best) && !Before(LibraryOrder(), x, best);
    assert forall x :: x in hits && lower(x.code) == lower(c) ==> LowerCode(lower)(x) == LowerCode(lower)(z) && !Before(LibraryOrder(), x, z);
    if z.code == c {
      NotBeforeMeansSame(t.library, scope.company, lower, z, best);
      forall y | y in hits && lower(y.code) == lower(c) && y.code != c ensures !Shadows(t, scope, lower, c, y) {
        assert !Before(LibraryOrder(), y, z);
      }
    } else {
      forall x | x in mine ensures Before(LibraryOrder(), z, x) {
        if !Before(LibraryOrder(), z, x) {
          NotBeforeMeansSame(t.library, scope.company, lower, z, x);
        }
      }
      assert Shadows(t, scope, lower, c, z);
    }
  }

  /** For each requested code, whatever the two queries answer, they agree exactly when the code has
      an override or a service item, or has no library row, or no other requested code with the same
      lower case owns a better library row. */
  lemma BatchAgreesWithSingle(t: Tables, scope: Scope, raws: seq<string>, lower: string -> string, raw: string,
      single: Result<Resolution, PricingError>, batch: map<string, Resolution>)
    requires UniqueKeys(t) && NoTies(t.library, scope.company, lower) && raw in raws && Trim(raw) != ""
    requires SingleAnswer(t, scope, raw, single) && BatchAnswer(t, scope, raws, lower, batch)
    ensures Agree(Trim(raw), single, batch)
      <==> UpperLayers(t, scope, {Trim(raw)}) != [] || LibraryHits(t.library, scope.company, {Trim(raw)}) == []
           || !Shadowed(t, scope, Codes(raws), lower, Trim(raw))
  {
    var c, codes := Trim(raw), Codes(raws);
    var library1: seq<LibraryItem>, winner: seq<ChainRow> :| SingleRows(t, scope, c, library1, winner)
      && single == if winner == [] then Err(ServiceItemNotFound) else Ok(Priced(winner[0]));
    var library2: seq<LibraryItem>, winners: seq<ChainRow> :| BatchRows(t, scope, codes, lower, library2, winners)
        && FilledFrom(winners, batch);
    SingleDecided(t, scope, c, library1, winner);
    BatchDecided(t, scope, codes, lower, c, library2, winners, batch);
    var upper, hits := UpperLayers(t, scope, {c}), LibraryHits(t.library, scope.company, {c});
    if upper != [] {
      var w :| w in upper && batch[c] == Priced(w) && forall r :: r in upper ==> w.priority <= r.priority;
      UpperUnique(t, scope, c, w, winner[0]);
    } else if hits != [] {
      var best :| Leads(best, hits, Same<LibraryItem>(), LibraryOrder()) && winner[0] == LibraryRow(best);
      LibraryAgreement(t, scope, codes, lower, c, best, library2);
    } else {
      HitMembers(t.library, scope.company, codes);
      HitMembers(t.library, scope.company, {c});
      forall i | 0 <= i < |library2| ensures library2[i].code != c {
        assert library2[i] in library2 && Leads(library2[i], LibraryHits(t.library, scope.company, codes), LowerCode(lower),
            LibraryOrder());
        assert LibraryHit(library2[i], scope.company, codes);
        if library2[i].code == c {
          assert LibraryHit(library2[i], scope.company, {c});
        }
      }
    }
  }

  /** A catalog that holds nothing but two shared library rows, the first one newer. */
  function TwoRows(a: string, b: string): Tables {
    Tables([], [], [], [], [],
      [LibraryItem("1", None, a, Some(2.0), None, "ea", 20, false), LibraryItem("2", None, b, Some(3.0), None, "ea", 10, false)])
  }

  /** Take any two codes that differ only in case, each with a library row of its own: single pricing
      prices both, and every batch answer for the two disagrees on the one whose row is older. */
  lemma CaseTwinsDisagree(a: string, b: string, lower: string -> string, single: Result<Resolution, PricingError>,
      batch: map<string, Resolution>)
    requires Trim(a) == a && Trim(b) == b && a != "" && b != "" && a != b && lower(a) == lower(b)
    requires SingleAnswer(TwoRows(a, b), Scope("co", "p", None), b, single)
    requires BatchAnswer(TwoRows(a, b), Scope("co", "p", None), [a, b], lower, batch)
    ensures !Agree(b, single, batch)
  {
    var t, scope := TwoRows(a, b), Scope("co", "p", None);
    assert a in [a, b] && b in [a, b];
    assert a in Codes([a, b]) && b in Codes([a, b]);
    TwoRowsSound(a, b, lower);
    OlderIsShadowed(a, b, lower, Codes([a, b]));
    BatchAgreesWithSingle(t, scope, [a, b], lower, b, single, batch);
  }

  lemma TwoRowsSound(a: string, b: string, lower: string -> string)
    requires a != b
    ensures UniqueKeys(TwoRows(a, b)) && NoTies(TwoRows(a, b).library, "co", lower)
    ensures UpperLayers(TwoRows(a, b), Scope("co", "p", None), {b}) == []
  {
  }

  lemma OlderIsShadowed(a: string, b: string, lower: string -> string, codes: set<string>)
    requires a != b && lower(a) == lower(b) && a in codes
    ensures Shadowed(TwoRows(a, b), Scope("co", "p", None), codes, lower, b)
    ensures LibraryHits(TwoRows(a, b).library, "co", {b}) != []
  {
    var library := TwoRows(a, b).library;
    assert library[0] in library && library[1] in library;
    HitMembers(library, "co", {b});
    HitMembers(library, "co", codes);
    assert library[1] in LibraryHits(library, "co", {b});
    assert library[0] in LibraryHits(library, "co", codes);
    assert Shadows(TwoRows(a, b), Scope("co", "p", None), lower, b, library[0]);
  }

  /** When the requested codes differ even ignoring case, the batch holds exactly what single pricing
      answers for every requested code, lacks exactly the codes single pricing rejects, and holds
      nothing else. */
  lemma BatchIsSingle(t: Tables, scope: Scope, raws: seq<string>, lower: string -> string, batch: map<string, Resolution>)
    requires UniqueKeys(t) && NoTies(t.library, scope.company, lower) && BatchAnswer(t, scope, raws, lower, batch)
    requires forall c, d :: c in Codes(raws) && d in Codes(raws) && lower(c) == lower(d) ==> c == d
    ensures forall raw, single :: raw in raws && Trim(raw) != "" && SingleAnswer(t, scope, raw, single) ==> Agree(Trim(raw), single, batch)
    ensures batch.Keys <= Codes(raws)
  {
    forall raw, single | raw in raws && Trim(raw) != "" && SingleAnswer(t, scope, raw, single)
      ensures Agree(Trim(raw), single, batch)
    {
      BatchAgreesWithSingle(t, scope, raws, lower, raw, single, batch);
      HitMembers(t.library, scope.company, Codes(raws));
      assert !Shadowed(t, scope, Codes(raws), lower, Trim(raw));
    }
    BatchKeys(t, scope, raws, lower, batch);
  }

  lemma BatchKeys(t: Tables, scope: Scope, raws: seq<string>, lower: string -> string, batch: map<string, Resolution>)
    requires BatchAnswer(t, scope, raws, lower, batch)
    ensures batch.Keys <= Codes(raws)
  {
    var codes := Codes(raws);
    var library: seq<LibraryItem>, winners: seq<ChainRow> :| BatchRows(t, scope, codes, lower, library, winners)
        && FilledFrom(winners, batch);
    HitMembers(t.library, scope.company, codes);
    forall c | c in batch ensures c in codes {
      var i :| 0 <= i < |winners| && winners[i].code == c;
      assert winners[i] in winners && Leads(winners[i], UpperLayers(t, scope, codes) + LibraryRows(library), CodeOf(), ByPriority());
      LibraryRowMembers(library, winners[i]);
      if winners[i] in LibraryRows(library) {
        var k :| 0 <= k < |library| && winners[i] == LibraryRow(library[k]);
        assert library[k] in library && Leads(library[k], LibraryHits(t.library, scope.company, codes), LowerCode(lower), LibraryOrder());
      } else {
        UpperCodesIn(t, scope, codes, winners[i]);
      }
    }
  }

  lemma UpperCodesIn(t: Tables, scope: Scope, codes: set<string>, r: ChainRow)
    requires r in UpperLayers(t, scope, codes)
    ensures r.code in codes
  {
    if codes == {} {
      NoCodes(t, scope);
    } else {
      var c :| c in codes;
      UpperMembers(t, scope, codes, c);
    }
  }

  lemma NoCodes(t: Tables, scope: Scope)
    ensures UpperLayers(t, scope, {}) == []
  {
    NoCodesOverrides(t.projectOverrides, 1, ProjectSource, scope.company, scope.project);
    if scope.customer.Some? {
      NoCodesOverrides(t.customerOverrides, 2, CustomerSource, scope.company, scope.customer.value);
    }
    NoCodesOverrides(t.companyOverrides, 3, CompanySource, scope.company, "");
    NoCodesItems(t.serviceItems, t.mappings, scope.company);
  }

  lemma {:induction false} NoCodesOverrides(table: seq<Override>, p: int, source: Source, company: string, owner: string)
    ensures OverrideRows(table, p, source, company, owner, {}) == []
  {
    if table != [] {
      NoCodesOverrides(table[1..], p, source, company, owner);
    }
  }

  lemma {:induction false} NoCodesItems(items: seq<ServiceItem>, mappings: seq<Mapping>, company: string)
    ensures QboRows(items, mappings, company, {}) == [] && FallbackRows(items, company, {}) == []
  {
    if items != [] {
      NoCodesItems(items[1..], mappings, company);
    }
  }
}
