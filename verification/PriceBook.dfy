/** The CSV price-book parser of apps/api/src/cost-library-import.ts. */
module PriceBook {
  import opened Basics

  // ---------- characters to cells ----------

  /** The scanner: the fields still to come, the first of which starts with `field`. */
  function Scan(line: string, inQuotes: bool, field: string): seq<string>
    decreases |line|
  {
    if line == [] then [field]
    else if inQuotes then
      if line[0] == '"' then
        if |line| > 1 && line[1] == '"' then Scan(line[2..], true, field + ['"']) else Scan(line[1..], false, field)
      else Scan(line[1..], true, field + [line[0]])
    else if line[0] == '"' then Scan(line[1..], true, field)
    else if line[0] == ',' then [field] + Scan(line[1..], false, "")
    else Scan(line[1..], false, field + [line[0]])
  }

  function Fields(line: string): seq<string> {
    Scan(line, false, "")
  }

  method SplitCsvLine(line: string) returns (out: seq<string>)
    ensures out == Fields(line)
  {
    out := [];
    var field := "";
    var inQuotes := false;
    var i := 0;
    while i < |line|
      invariant 0 <= i <= |line|
      invariant Fields(line) == out + Scan(line[i..], inQuotes, field)
    {
      var ch := line[i];
      assert line[i..][0] == ch && line[i..][1..] == line[i + 1..];
      if inQuotes {
        if ch == '"' {
          if i + 1 < |line| && line[i + 1] == '"' {
            assert line[i..][1] == '"' && line[i..][2..] == line[i + 2..];
            field := field + ['"'];
            i := i + 1;
          } else {
            inQuotes := false;
          }
        } else {
          field := field + [ch];
        }
      } else if ch == '"' {
        inQuotes := true;
      } else if ch == ',' {
        out := out + [field];
        field := "";
      } else {
        field := field + [ch];
      }
      i := i + 1;
    }
    out := out + [field];
  }

  // ---------- text to lines ----------

  const BOM := '\U{FEFF}'

  function StripBom(csv: string): string {
    if csv != [] && csv[0] == BOM then csv[1..] else csv
  }

  /** Every CRLF, CR or LF becomes one LF. */
  function UnixLines(s: string): string {
    if s == [] then []
    else if s[0] == '\r' then ['\n'] + UnixLines(if |s| > 1 && s[1] == '\n' then s[2..] else s[1..])
    else [s[0]] + UnixLines(s[1..])
  }

  /** `split('\n')` */
  function Lines(s: string): (lines: seq<string>)
    ensures |lines| >= 1
  {
    if s == [] then [""]
    else
      var rest := Lines(s[1..]);
      if s[0] == '\n' then [""] + rest else [[s[0]] + rest[0]] + rest[1..]
  }

  predicate Blank(line: string) {
    Trim(line) == ""
  }

  /** The rows of the lines that are not blank. */
  function RowsOf(lines: seq<string>): seq<seq<string>> {
    if lines == [] then [] else (if Blank(lines[0]) then [] else [Fields(lines[0])]) + RowsOf(lines[1..])
  }

  function Cells(csv: string): seq<seq<string>> {
    RowsOf(Lines(UnixLines(StripBom(csv))))
  }

  lemma {:induction false} RowsSnoc(lines: seq<string>, last: string)
    ensures RowsOf(lines + [last]) == RowsOf(lines) + (if Blank(last) then [] else [Fields(last)])
  {
    if lines == [] {
      assert [] + [last] == [last] && [last][1..] == [];
    } else {
      assert (lines + [last])[0] == lines[0] && (lines + [last])[1..] == lines[1..] + [last];
      RowsSnoc(lines[1..], last);
      Regroup(if Blank(lines[0]) then [] else [Fields(lines[0])], RowsOf(lines[1..]), if Blank(last) then [] else [Fields(last)]);
    }
  }

  /** The loop over the lines of a text. */
  method SplitLines(lines: seq<string>) returns (rows: seq<seq<string>>)
    ensures rows == RowsOf(lines)
  {
    rows := [];
    for i := 0 to |lines|
      invariant rows == RowsOf(lines[..i])
    {
      assert lines[..i + 1] == lines[..i] + [lines[i]];
      RowsSnoc(lines[..i], lines[i]);
      if !Blank(lines[i]) {
        var row := SplitCsvLine(lines[i]);
        rows := rows + [row];
      }
    }
    assert lines[..|lines|] == lines;
  }

  method ParseCsvCells(csv: string) returns (rows: seq<seq<string>>)
    ensures rows == Cells(csv)
  {
    rows := SplitLines(Lines(UnixLines(StripBom(csv))));
  }

  // ---------- header mapping ----------

  datatype Column = Trade | Code | Name | Unit | MaterialRate | LaborRate | Rate | Region | Source

  const COLUMNS := [Trade, Code, Name, Unit, MaterialRate, LaborRate, Rate, Region, Source]

  function Aliases(column: Column): seq<string> {
    match column
    case Trade => ["trade", "category", "division", "group"]
    case Code => ["code", "csi", "csicode", "masterformat", "masterformatcode", "serviceitemcode", "itemcode", "sku"]
    case Name => ["name", "description", "desc", "item", "label"]
    case Unit => ["unit", "uom", "units"]
    case MaterialRate => ["materialrate", "material", "materialcost", "matcost", "matrate"]
    case LaborRate => ["laborrate", "labor", "laborcost", "labour", "labourrate", "labourcost"]
    case Rate => ["rate", "cost", "unitcost", "unitprice", "price"]
    case Region => ["region", "area", "zone", "market", "location"]
    case Source => ["source", "origin", "pricebook", "book"]
  }

  /** Lower case, letters and digits only.  Two characters outside ASCII have an ASCII letter in
      their lower case: the Kelvin sign and the dotted capital I. */
  function NormalizeHeader(raw: string): string {
    if raw == [] then []
    else
      var c := raw[0];
      (if 'a' <= c <= 'z' || '0' <= c <= '9' then [c]
       else if 'A' <= c <= 'Z' then [c - 'A' + 'a']
       else if c == '\U{212A}' then ['k']
       else if c == '\U{0130}' then ['i']
       else [])
      + NormalizeHeader(raw[1..])
  }

  predicate Names(cell: string, column: Column) {
    NormalizeHeader(cell) in Aliases(column)
  }

  /** The first cell that names the column. */
  function FirstNaming(header: seq<string>, column: Column): Option<nat> {
    if header == [] then None
    else if Names(header[0], column) then Some(0)
    else
      var later := FirstNaming(header[1..], column);
      if later.None? then None else Some(later.value + 1)
  }

  lemma {:induction false} FirstNamingFinds(header: seq<string>, column: Column)
    ensures FirstNaming(header, column).None? <==> forall i :: 0 <= i < |header| ==> !Names(header[i], column)
    ensures FirstNaming(header, column).Some? ==>
      var at := FirstNaming(header, column).value;
      at < |header| && Names(header[at], column) && forall i :: 0 <= i < at ==> !Names(header[i], column)
  {
    if header != [] {
      FirstNamingFinds(header[1..], column);
      if !Names(header[0], column) {
        forall i | 0 <= i < |header[1..]| ensures header[1..][i] == header[i + 1] {
        }
      }
    }
  }

  /** What the header loop knows after `n` cells. */
  ghost predicate Mapped(header: seq<string>, columns: map<Column, nat>, n: nat)
    requires n <= |header|
  {
    forall c :: FirstNaming(header[..n], c) == if c in columns then Some(columns[c]) else None
  }

  lemma {:induction false} FirstNamingSnoc(header: seq<string>, cell: string, column: Column)
    ensures FirstNaming(header + [cell], column)
      == if FirstNaming(header, column).Some? then FirstNaming(header, column)
         else if Names(cell, column) then Some(|header|) else None
  {
    if header == [] {
      assert ([] + [cell])[1..] == [];
    } else {
      assert (header + [cell])[1..] == header[1..] + [cell];
      FirstNamingSnoc(header[1..], cell, column);
    }
  }

  /** The columns after one more header cell: each unmapped column the cell names goes to it. */
  lemma MappedStep(header: seq<string>, before: map<Column, nat>, after: map<Column, nat>, n: nat)
    requires n < |header| && Mapped(header, before, n)
    requires forall c :: c in after <==> c in before || Names(header[n], c)
    requires forall c :: c in after ==> after[c] == if c in before then before[c] else n
    ensures Mapped(header, after, n + 1)
  {
    assert header[..n + 1] == header[..n] + [header[n]];
    forall c ensures FirstNaming(header[..n + 1], c) == if c in after then Some(after[c]) else None {
      FirstNamingSnoc(header[..n], header[n], c);
    }
  }

  /** Each canonical column goes to the first header cell with one of its aliases. */
  method MapHeader(header: seq<string>) returns (columns: map<Column, nat>)
    ensures forall c :: FirstNaming(header, c) == if c in columns then Some(columns[c]) else None
  {
    columns := map[];
    for idx := 0 to |header|
      invariant Mapped(header, columns, idx)
    {
      ghost var before := columns;
      var norm := NormalizeHeader(header[idx]);
      if norm != "" {
        columns := MapCell(norm, idx, columns);
      }
      forall c ensures norm == "" ==> !Names(header[idx], c) {
      }
      MappedStep(header, before, columns, idx);
    }
    assert header[..|header|] == header;
  }

  /** The inner loop of the header mapping, over the canonical columns. */
  method MapCell(norm: string, idx: nat, before: map<Column, nat>) returns (columns: map<Column, nat>)
    ensures forall c :: c in columns <==> c in before || norm in Aliases(c)
    ensures forall c :: c in columns ==> columns[c] == if c in before then before[c] else idx
  {
    columns := before;
    for k := 0 to |COLUMNS|
      invariant forall c :: c in columns <==> c in before || (norm in Aliases(c) && c in COLUMNS[..k])
      invariant forall c :: c in columns ==> columns[c] == if c in before then before[c] else idx
    {
      var canonical := COLUMNS[k];
      if norm in Aliases(canonical) && canonical !in columns {
        columns := columns[canonical := idx];
      }
    }
    forall c ensures c in COLUMNS[..|COLUMNS|] {
      EveryColumnListed(c);
    }
  }

  lemma EveryColumnListed(c: Column)
    ensures exists k :: 0 <= k < |COLUMNS| && COLUMNS[k] == c
  {
    match c
    case Trade => assert COLUMNS[0] == c;
    case Code => assert COLUMNS[1] == c;
    case Name => assert COLUMNS[2] == c;
    case Unit => assert COLUMNS[3] == c;
    case MaterialRate => assert COLUMNS[4] == c;
    case LaborRate => assert COLUMNS[5] == c;
    case Rate => assert COLUMNS[6] == c;
    case Region => assert COLUMNS[7] == c;
    case Source => assert COLUMNS[8] == c;
  }

  // ---------- rows ----------

  datatype BookRow = BookRow(
    trade: string, code: string, name: Option<string>, unit: string,
    materialRate: Option<real>, laborRate: Option<real>, region: Option<string>, source: string)

  datatype BookError = EmptyBook | NoCodeColumn | TooManyRows

  /** `Number` on text; `None` where it gives NaN or an infinity. */
  type NumberReader = string -> Option<real>

  function TrimToNull(raw: Option<string>, maxLen: nat): Option<string> {
    if raw.None? || Trim(raw.value) == "" then None
    else
      var s := Trim(raw.value);
      Some(if |s| > maxLen then s[..maxLen] else s)
  }

  /** Without currency signs, thousands separators and white space. */
  function Stripped(s: string): string {
    if s == [] then [] else (if s[0] == '$' || s[0] == ',' || IsSpace(s[0]) then [] else [s[0]]) + Stripped(s[1..])
  }

  function ParseRate(raw: Option<string>, number: NumberReader): Option<real> {
    if raw.None? || Trim(raw.value) == "" || Stripped(Trim(raw.value)) == "" then None
    else
      var n := number(Stripped(Trim(raw.value)));
      if n.None? || n.value < 0.0 then None else n
  }

  function CellAt(cells: seq<string>, header: seq<string>, column: Column): Option<string> {
    var idx := FirstNaming(header, column);
    if idx.Some? && idx.value < |cells| then Some(cells[idx.value]) else None
  }

  function BuildRow(cells: seq<string>, header: seq<string>, defaultSource: string, number: NumberReader): Option<BookRow> {
    var code := TrimToNull(CellAt(cells, header, Code), 128);
    if code.None? then None
    else
      var material := ParseRate(CellAt(cells, header, MaterialRate), number);
      var labor := ParseRate(CellAt(cells, header, LaborRate), number);
      var combined := if material.None? && labor.None? then ParseRate(CellAt(cells, header, Rate), number) else None;
      Some(BookRow(
        TrimToNull(CellAt(cells, header, Trade), 128).GetOr("general"),
        code.value,
        TrimToNull(CellAt(cells, header, Name), 512),
        TrimToNull(CellAt(cells, header, Unit), 32).GetOr("ea"),
        if material.Some? then material else combined,
        labor,
        TrimToNull(CellAt(cells, header, Region), 128),
        TrimToNull(CellAt(cells, header, Source), 64).GetOr(defaultSource)))
  }

  type RowBuilder = seq<string> -> Option<BookRow>

  function Builder(header: seq<string>, defaultSource: string, number: NumberReader): RowBuilder {
    cells => BuildRow(cells, header, defaultSource, number)
  }

  /** The rows that have a usable code, in order. */
  function Built(data: seq<seq<string>>, build: RowBuilder): seq<BookRow> {
    if data == [] then []
    else (if build(data[0]).Some? then [build(data[0]).value] else []) + Built(data[1..], build)
  }

  /** The row cap is on the rows that are kept, and a book over the cap gives no rows at all. */
  function Finalized(data: seq<seq<string>>, build: RowBuilder, maxRows: nat): Result<seq<BookRow>, BookError> {
    if |Built(data, build)| > maxRows then Err(TooManyRows) else Ok(Built(data, build))
  }

  method FinalizeRows(data: seq<seq<string>>, build: RowBuilder, maxRows: nat) returns (result: Result<seq<BookRow>, BookError>)
    ensures result == Finalized(data, build, maxRows)
  {
    var out := [];
    for i := 0 to |data|
      invariant Built(data, build) == out + Built(data[i..], build)
      invariant |out| <= maxRows
    {
      assert data[i..][0] == data[i] && data[i..][1..] == data[i + 1..];
      var row := build(data[i]);
      if row.Some? {
        out := out + [row.value];
      }
      if |out| > maxRows {
        assert |Built(data, build)| >= |out|;
        return Err(TooManyRows);
      }
    }
    assert data[|data|..] == [] && Built(data, build) == out;
    result := Ok(out);
  }

  function Book(csv: string, maxRows: nat, defaultSource: string, number: NumberReader): Result<seq<BookRow>, BookError> {
    var cells := Cells(csv);
    if cells == [] then Err(EmptyBook)
    else if FirstNaming(cells[0], Code).None? then Err(NoCodeColumn)
    else Finalized(cells[1..], Builder(cells[0], defaultSource, number), maxRows)
  }

  method ParseCsvPriceBook(csv: string, maxRows: nat, defaultSource: string,
      number: NumberReader) returns (result: Result<seq<BookRow>, BookError>)
    ensures result == Book(csv, maxRows, defaultSource, number)
  {
    var cells := ParseCsvCells(csv);
    if |cells| == 0 {
      return Err(EmptyBook);
    }
    var header := MapHeader(cells[0]);
    if Code !in header {
      return Err(NoCodeColumn);
    }
    result := FinalizeRows(cells[1..], Builder(cells[0], defaultSource, number), maxRows);
  }
}
