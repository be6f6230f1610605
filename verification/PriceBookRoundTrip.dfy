/** The CSV parser against the quote-every-field printer of section 2 of RFC 4180. */
module PriceBookRoundTrip {
  import opened Basics
  import opened PriceBook

  // ---------- the printer ----------

  function Escape(field: string): string {
    if field == [] then [] else (if field[0] == '"' then "\"\"" else [field[0]]) + Escape(field[1..])
  }

  function QuoteField(field: string): string {
    "\"" + Escape(field) + "\""
  }

  function PrintRow(fields: seq<string>): string {
    if fields == [] then "" else QuoteField(fields[0]) + (if |fields| == 1 then "" else "," + PrintRow(fields[1..]))
  }

  /** Every record ends with a line break. */
  function PrintRows(rows: seq<seq<string>>, eol: string): string {
    if rows == [] then "" else PrintRow(rows[0]) + eol + PrintRows(rows[1..], eol)
  }

  function Document(rows: seq<seq<string>>, eol: string, bom: bool): string {
    (if bom then [BOM] else []) + PrintRows(rows, eol)
  }

  predicate IsLineBreak(eol: string) {
    eol == "\r\n" || eol == "\n" || eol == "\r"
  }

  predicate BreaksLine(c: char) {
    c == '\r' || c == '\n'
  }

  predicate OneLine(s: string) {
    forall i :: 0 <= i < |s| ==> !BreaksLine(s[i])
  }

  /** A row that a CSV document can carry to this parser: it has a field, and no field holds a line
      break. */
  predicate Portable(row: seq<string>) {
    row != [] && forall i :: 0 <= i < |row| ==> OneLine(row[i])
  }

  // ---------- one line ----------

  /** Reading a quoted field up to its closing quote gives the field back. */
  lemma {:induction false} ScanQuoted(field: string, rest: string, read: string)
    requires rest == [] || rest[0] != '"'
    ensures Scan(Escape(field) + "\"" + rest, true, read) == Scan(rest, false, read + field)
    decreases |field|
  {
    var text := Escape(field) + "\"" + rest;
    if field == [] {
      assert text == "\"" + rest;
      assert text[0] == '"' && text[1..] == rest;
      assert read + field == read;
    } else {
      var tail := Escape(field[1..]) + "\"" + rest;
      ScanQuoted(field[1..], rest, read + [field[0]]);
      assert (read + [field[0]]) + field[1..] == read + field;
      if field[0] == '"' {
        assert text == "\"\"" + tail;
        assert text[0] == '"' && text[1] == '"' && text[2..] == tail;
      } else {
        assert text == [field[0]] + tail;
        assert text[0] == field[0] && text[1..] == tail;
      }
    }
  }

  /** At line level the splitter undoes the printer for every field content, line breaks included. */
  lemma {:induction false} SplitUndoesPrint(fields: seq<string>)
    requires fields != []
    ensures Fields(PrintRow(fields)) == fields
  {
    var rest := if |fields| == 1 then "" else "," + PrintRow(fields[1..]);
    var line := PrintRow(fields);
    assert line == "\"" + (Escape(fields[0]) + "\"" + rest);
    assert line[0] == '"' && line[1..] == Escape(fields[0]) + "\"" + rest;
    ScanQuoted(fields[0], rest, "");
    assert "" + fields[0] == fields[0];
    if |fields| == 1 {
      assert fields == [fields[0]];
    } else {
      SplitUndoesPrint(fields[1..]);
      assert rest[0] == ',' && rest[1..] == PrintRow(fields[1..]);
      assert fields == [fields[0]] + fields[1..];
    }
  }

  lemma {:induction false} EscapeOneLine(field: string)
    ensures OneLine(Escape(field)) <==> OneLine(field)
  {
    if field != [] {
      EscapeOneLine(field[1..]);
      var head := if field[0] == '"' then "\"\"" else [field[0]];
      OneLineAppends(head, Escape(field[1..]));
      OneLineAppends([field[0]], field[1..]);
      assert field == [field[0]] + field[1..];
      assert OneLine(head) <==> OneLine([field[0]]) by {
        assert head[0] == field[0] && [field[0]][0] == field[0];
      }
    }
  }

  lemma OneLineAppends(a: string, b: string)
    ensures OneLine(a + b) <==> OneLine(a) && OneLine(b)
  {
    if OneLine(a + b) {
      assert forall i :: 0 <= i < |a| ==> a[i] == (a + b)[i];
      assert forall i :: 0 <= i < |b| ==> b[i] == (a + b)[|a| + i];
    }
  }

  /** A printed row starts and ends with a quote and breaks the line exactly where a field does. */
  lemma {:induction false} PrintRowShape(fields: seq<string>)
    requires fields != []
    ensures var line := PrintRow(fields); |line| >= 2 && line[0] == '"' && line[|line| - 1] == '"'
    ensures OneLine(PrintRow(fields)) <==> Portable(fields)
  {
    EscapeOneLine(fields[0]);
    OneLineAppends("\"", Escape(fields[0]));
    OneLineAppends("\"" + Escape(fields[0]), "\"");
    if |fields| > 1 {
      PrintRowShape(fields[1..]);
      OneLineAppends(QuoteField(fields[0]), "," + PrintRow(fields[1..]));
      OneLineAppends(",", PrintRow(fields[1..]));
      assert fields == [fields[0]] + fields[1..];
    } else {
      assert PrintRow(fields) == QuoteField(fields[0]);
    }
  }

  // ---------- lines of a text ----------

  /** Normalisation works piece by piece where no CRLF is cut in two. */
  lemma {:induction false} UnixAppends(a: string, b: string)
    requires a == [] || a[|a| - 1] != '\r' || b == [] || b[0] != '\n'
    ensures UnixLines(a + b) == UnixLines(a) + UnixLines(b)
    decreases |a|
  {
    if a == [] {
      assert a + b == b;
    } else {
      var head := if a[0] == '\r' then "\n" else [a[0]];
      var cut := if a[0] == '\r' && |a| > 1 && a[1] == '\n' then 2 else 1;
      assert (a + b)[0] == a[0] && (a + b)[cut..] == a[cut..] + b;
      UnixAppends(a[cut..], b);
      assert UnixLines(a + b) == head + UnixLines(a[cut..] + b);
      Regroup(head, UnixLines(a[cut..]), UnixLines(b));
    }
  }

  lemma {:induction false} UnixOneLine(s: string)
    ensures OneLine(s) ==> UnixLines(s) == s
    ensures OneLine(s) <==> OneLine(UnixLines(s))
    decreases |s|
  {
    if s != [] {
      var next := if s[0] == '\r' && |s| > 1 && s[1] == '\n' then s[2..] else s[1..];
      UnixOneLine(next);
      if s[0] == '\r' {
        assert UnixLines(s)[0] == '\n';
      } else {
        OneLineAppends([s[0]], s[1..]);
        OneLineAppends([s[0]], UnixLines(s[1..]));
        assert s == [s[0]] + s[1..];
      }
    }
  }

  /** A text between two quotes keeps them when its line breaks are normalised. */
  lemma UnixKeepsQuotes(s: string)
    requires |s| >= 2 && s[0] == '"' && s[|s| - 1] == '"'
    ensures var t := UnixLines(s); |t| >= 2 && t[0] == '"' && t[|t| - 1] == '"'
  {
    var inner := s[1..|s| - 1];
    assert s[1..] == inner + "\"";
    UnixAppends(inner, "\"");
    assert UnixLines("\"") == "\"" by {
      assert "\""[1..] == "";
    }
  }

  lemma {:induction false} LinesAppend(a: string, b: string)
    ensures Lines(a + "\n" + b) == Lines(a) + Lines(b)
    decreases |a|
  {
    var text := a + "\n" + b;
    if a == [] {
      assert text[0] == '\n' && text[1..] == b;
    } else {
      assert text[0] == a[0] && text[1..] == a[1..] + "\n" + b;
      LinesAppend(a[1..], b);
    }
  }

  lemma {:induction false} LinesOfOne(s: string)
    requires forall i :: 0 <= i < |s| ==> s[i] != '\n'
    ensures Lines(s) == [s]
  {
    if s != [] {
      LinesOfOne(s[1..]);
      assert s == [s[0]] + s[1..] && [s[1..]][1..] == [];
    }
  }

  /** A text with a line break inside, between two quotes, is at least two lines, of which the first
      and the last show a quote. */
  lemma {:induction false} BrokenLines(s: string, i: nat)
    requires i < |s| && s[i] == '\n' && s[|s| - 1] == '"'
    ensures var lines := Lines(s);
      |lines| >= 2 && lines[|lines| - 1] != [] && lines[|lines| - 1][|lines[|lines| - 1]| - 1] == '"'
    ensures s[0] != '\n' ==> Lines(s)[0] != [] && Lines(s)[0][0] == s[0]
    decreases |s|
  {
    if i == 0 {
      LastQuote(s[1..]);
    } else {
      BrokenLines(s[1..], i - 1);
    }
  }

  lemma {:induction false} LastQuote(s: string)
    requires s != [] && s[|s| - 1] == '"'
    ensures var lines := Lines(s);
      lines[|lines| - 1] != [] && lines[|lines| - 1][|lines[|lines| - 1]| - 1] == '"'
  {
    if |s| > 1 {
      LastQuote(s[1..]);
    } else {
      assert s[1..] == [];
    }
  }

  lemma QuoteIsVisible(line: string, i: nat)
    requires i < |line| && line[i] == '"'
    ensures !Blank(line)
  {
    TrimKeepsVisible(line, i);
  }

  // ---------- rows of a text ----------

  lemma {:induction false} RowsAppend(a: seq<string>, b: seq<string>)
    ensures RowsOf(a + b) == RowsOf(a) + RowsOf(b)
  {
    if a == [] {
      assert a + b == b;
    } else {
      assert (a + b)[0] == a[0] && (a + b)[1..] == a[1..] + b;
      RowsAppend(a[1..], b);
    }
  }

  lemma {:induction false} RowsAreNonEmpty(lines: seq<string>)
    ensures forall i :: 0 <= i < |RowsOf(lines)| ==> RowsOf(lines)[i] != []
  {
    if lines != [] {
      RowsAreNonEmpty(lines[1..]);
      ScanGivesAField(lines[0], false, "");
    }
  }

  lemma {:induction false} ScanGivesAField(line: string, inQuotes: bool, field: string)
    ensures Scan(line, inQuotes, field) != []
    decreases |line|
  {
    if line != [] {
      if inQuotes && line[0] == '"' && |line| > 1 && line[1] == '"' {
        ScanGivesAField(line[2..], true, field + ['"']);
      } else if inQuotes {
        ScanGivesAField(line[1..], line[0] != '"', if line[0] == '"' then field else field + [line[0]]);
      } else if line[0] != ',' {
        ScanGivesAField(line[1..], line[0] == '"', if line[0] == '"' then field else field + [line[0]]);
      }
    }
  }

  /** What the text of one printed row contributes. */
  function RowsOfText(text: string): seq<seq<string>> {
    RowsOf(Lines(UnixLines(text)))
  }

  lemma OneVisibleLine(line: string)
    requires !Blank(line)
    ensures RowsOf([line]) == [Fields(line)]
  {
    assert [line][1..] == [];
  }

  lemma PortableRowComesBack(fields: seq<string>)
    requires Portable(fields)
    ensures RowsOfText(PrintRow(fields)) == [fields]
  {
    var line := PrintRow(fields);
    PrintRowShape(fields);
    UnixOneLine(line);
    LinesOfOne(line);
    QuoteIsVisible(line, 0);
    OneVisibleLine(line);
    SplitUndoesPrint(fields);
  }

  lemma BrokenRowComesApart(fields: seq<string>)
    requires fields != [] && !Portable(fields)
    ensures |RowsOfText(PrintRow(fields))| >= 2
  {
    var line := PrintRow(fields);
    PrintRowShape(fields);
    UnixOneLine(line);
    UnixKeepsQuotes(line);
    var text := UnixLines(line);
    var i :| 0 <= i < |text| && BreaksLine(text[i]);
    NoReturns(line, i);
    BrokenLines(text, i);
    var lines := Lines(text);
    var last := |lines| - 1;
    QuoteIsVisible(lines[0], 0);
    QuoteIsVisible(lines[last], |lines[last]| - 1);
    TwoVisibleLines(lines);
  }

  lemma TwoVisibleLines(lines: seq<string>)
    requires |lines| >= 2 && !Blank(lines[0]) && !Blank(lines[|lines| - 1])
    ensures |RowsOf(lines)| >= 2
  {
    var last := |lines| - 1;
    assert lines == lines[..last] + [lines[last]] && lines[..last] == [lines[0]] + lines[1..last];
    RowsAppend(lines[..last], [lines[last]]);
    RowsAppend([lines[0]], lines[1..last]);
  }

  lemma {:induction false} NoReturns(s: string, i: nat)
    requires i < |UnixLines(s)|
    ensures UnixLines(s)[i] != '\r'
    decreases |s|
  {
    var next := if s[0] == '\r' && |s| > 1 && s[1] == '\n' then s[2..] else s[1..];
    if i > 0 {
      NoReturns(next, i - 1);
    }
  }

  lemma UnixLineBreak(eol: string)
    requires IsLineBreak(eol)
    ensures UnixLines(eol) == "\n"
  {
    assert eol == "\r\n" ==> eol[2..] == "";
    assert eol != "\r\n" ==> eol[1..] == "";
  }

  /** What may follow a line break of a document: nothing, a quote, or the same line break. */
  predicate Follows(rest: string, eol: string) {
    rest == [] || rest[0] == '"' || eol <= rest
  }

  lemma UnixUnfolds(line: string, rest: string, eol: string)
    requires IsLineBreak(eol) && Follows(rest, eol) && (line == [] || line[|line| - 1] == '"')
    ensures UnixLines(line + eol + rest) == UnixLines(line) + "\n" + UnixLines(rest)
  {
    assert line + eol + rest == line + (eol + rest);
    UnixAppends(line, eol + rest);
    UnixBreakFirst(rest, eol);
    Regroup(UnixLines(line), "\n", UnixLines(rest));
  }

  lemma UnixBreakFirst(rest: string, eol: string)
    requires IsLineBreak(eol) && Follows(rest, eol)
    ensures UnixLines(eol + rest) == "\n" + UnixLines(rest)
  {
    assert eol[|eol| - 1] == '\r' ==> rest == [] || rest[0] != '\n';
    UnixAppends(eol, rest);
    UnixLineBreak(eol);
  }

  /** A document splits into its first row and the rest. */
  lemma DocumentUnfolds(row: seq<string>, rest: string, eol: string)
    requires IsLineBreak(eol) && Follows(rest, eol)
    ensures RowsOfText(PrintRow(row) + eol + rest) == RowsOfText(PrintRow(row)) + RowsOfText(rest)
  {
    var line := PrintRow(row);
    if row != [] {
      PrintRowShape(row);
    }
    UnixUnfolds(line, rest, eol);
    LinesAppend(UnixLines(line), UnixLines(rest));
    RowsAppend(Lines(UnixLines(line)), Lines(UnixLines(rest)));
  }

  lemma PrintRowsStart(rows: seq<seq<string>>, eol: string)
    requires IsLineBreak(eol)
    ensures Follows(PrintRows(rows, eol), eol)
  {
    if rows != [] {
      if rows[0] == [] {
        assert PrintRows(rows, eol) == eol + PrintRows(rows[1..], eol);
      } else {
        PrintRowShape(rows[0]);
      }
    }
  }

  // ---------- documents ----------

  lemma EmptyText()
    ensures RowsOfText("") == []
  {
    assert Lines("") == [""] && [""][1..] == [] && Blank("");
  }

  predicate AllPortable(rows: seq<seq<string>>) {
    forall i :: 0 <= i < |rows| ==> Portable(rows[i])
  }

  lemma FirstRowApart(first: seq<string>, rest: seq<seq<string>>, eol: string)
    requires IsLineBreak(eol)
    ensures RowsOfText(PrintRows([first] + rest, eol)) == RowsOfText(PrintRow(first)) + RowsOfText(PrintRows(rest, eol))
  {
    PrintRowsStart(rest, eol);
    DocumentUnfolds(first, PrintRows(rest, eol), eol);
    assert ([first] + rest)[1..] == rest;
  }

  /** Of rows with a field each, a document gives back at least as many, and the very same ones if
      all are portable, and more if one is not. */
  lemma {:induction false} RowsComeBack(rows: seq<seq<string>>, eol: string)
    requires IsLineBreak(eol) && forall i :: 0 <= i < |rows| ==> rows[i] != []
    ensures AllPortable(rows) ==> RowsOfText(PrintRows(rows, eol)) == rows
    ensures |RowsOfText(PrintRows(rows, eol))| >= |rows|
    ensures !AllPortable(rows) ==> |RowsOfText(PrintRows(rows, eol))| > |rows|
  {
    if rows == [] {
      EmptyText();
    } else {
      var first, rest := rows[0], rows[1..];
      RowsComeBack(rest, eol);
      FirstRowApart(first, rest, eol);
      assert rows == [first] + rest;
      assert AllPortable(rows) <==> Portable(first) && AllPortable(rest);
      if Portable(first) {
        PortableRowComesBack(first);
      } else {
        BrokenRowComesApart(first);
      }
    }
  }

  lemma StripPrintedBom(rows: seq<seq<string>>, eol: string, bom: bool)
    requires IsLineBreak(eol)
    ensures StripBom(Document(rows, eol, bom)) == PrintRows(rows, eol)
  {
    PrintRowsStart(rows, eol);
    if bom {
      assert Document(rows, eol, bom)[1..] == PrintRows(rows, eol);
    } else {
      assert Document(rows, eol, bom) == PrintRows(rows, eol);
    }
  }

  /** The parser undoes the printer, with any of the three line breaks and with or without a byte
      order mark, exactly for the documents whose rows all have a field and whose fields hold no
      line break. */
  lemma ParseUndoesPrint(rows: seq<seq<string>>, eol: string, bom: bool)
    requires IsLineBreak(eol)
    ensures Cells(Document(rows, eol, bom)) == rows <==> AllPortable(rows)
  {
    StripPrintedBom(rows, eol, bom);
    if i :| 0 <= i < |rows| && rows[i] == [] {
      RowsAreNonEmpty(Lines(UnixLines(PrintRows(rows, eol))));
      assert !Portable(rows[i]);
    } else {
      RowsComeBack(rows, eol);
    }
  }

  // ---------- whole price books ----------

  /** A printed price book is read as its cells: only the header row and the data rows matter, not
      the quoting, the line breaks or the byte order mark. */
  lemma PrintedBook(header: seq<string>, data: seq<seq<string>>, eol: string, bom: bool, maxRows: nat, source: string, number: NumberReader)
    requires IsLineBreak(eol) && AllPortable([header] + data)
    ensures Book(Document([header] + data, eol, bom), maxRows, source, number)
      == if FirstNaming(header, Code).None? then Err(NoCodeColumn) else Finalized(data, Builder(header, source, number), maxRows)
  {
    ParseUndoesPrint([header] + data, eol, bom);
    assert ([header] + data)[1..] == data;
  }

  /** `order` lists every column position once. */
  predicate Reorders(order: seq<nat>, width: nat) {
    |order| == width && (forall i :: 0 <= i < width ==> order[i] < width)
    && (forall i, j :: 0 <= i < j < width ==> order[i] != order[j])
    && (forall k :: 0 <= k < width ==> k in order)
  }

  function Reordered(row: seq<string>, order: seq<nat>): seq<string>
    requires Reorders(order, |row|)
  {
    seq(|row|, i requires 0 <= i < |row| => row[order[i]])
  }

  predicate AtMostOneCellNames(header: seq<string>, column: Column) {
    forall i, j :: 0 <= i < j < |header| ==> !(Names(header[i], column) && Names(header[j], column))
  }

  lemma ReorderedCell(header: seq<string>, row: seq<string>, order: seq<nat>, column: Column)
    requires |row| == |header| && Reorders(order, |header|) && AtMostOneCellNames(header, column)
    ensures CellAt(Reordered(row, order), Reordered(header, order), column) == CellAt(row, header, column)
  {
    var header' := Reordered(header, order);
    FirstNamingFinds(header, column);
    FirstNamingFinds(header', column);
    if FirstNaming(header, column).Some? {
      var at := FirstNaming(header, column).value;
      assert at in order;
      var i :| 0 <= i < |order| && order[i] == at;
      assert Names(header'[i], column);
      var at' := FirstNaming(header', column).value;
      assert Names(header[order[at']], column);
      assert order[at'] == at;
    } else {
      assert forall i :: 0 <= i < |header'| ==> !Names(header[order[i]], column);
    }
  }

  /** Moving the columns never changes which cell a row has for this column. */
  ghost predicate OrderFree(header: seq<string>, column: Column) {
    forall row: seq<string>, order: seq<nat> :: |row| == |header| && Reorders(order, |row|) ==>
      CellAt(Reordered(row, order), Reordered(header, order), column) == CellAt(row, header, column)
  }

  function Swapped(k: nat, i: nat, j: nat): nat {
    if k == i then j else if k == j then i else k
  }

  function Swap(width: nat, i: nat, j: nat): seq<nat> {
    seq(width, k requires 0 <= k < width => Swapped(k, i, j))
  }

  lemma SwapReorders(width: nat, i: nat, j: nat)
    requires i < width && j < width
    ensures Reorders(Swap(width, i, j), width)
  {
    forall k | 0 <= k < width ensures k in Swap(width, i, j) {
      assert Swap(width, i, j)[Swapped(k, i, j)] == k;
    }
  }

  /** The order of the columns is irrelevant to a column exactly when no two header cells compete for it. */
  lemma OrderFreeIff(header: seq<string>, column: Column)
    ensures OrderFree(header, column) <==> AtMostOneCellNames(header, column)
  {
    if AtMostOneCellNames(header, column) {
      forall row: seq<string>, order: seq<nat> | |row| == |header| && Reorders(order, |row|)
        ensures CellAt(Reordered(row, order), Reordered(header, order), column) == CellAt(row, header, column)
      {
        ReorderedCell(header, row, order, column);
      }
    } else {
      FirstNamingFinds(header, column);
      var at := FirstNaming(header, column).value;
      var other :| at < other < |header| && Names(header[other], column);
      SwapMatters(header, column, at, other);
    }
  }

  lemma FirstNamingAt(header: seq<string>, column: Column, at: nat)
    requires at < |header| && Names(header[at], column) && forall i :: 0 <= i < at ==> !Names(header[i], column)
    ensures FirstNaming(header, column) == Some(at)
  {
    FirstNamingFinds(header, column);
  }

  lemma SwapMatters(header: seq<string>, column: Column, at: nat, other: nat)
    requires at < other < |header| && Names(header[at], column) && Names(header[other], column)
    requires forall i :: 0 <= i < at ==> !Names(header[i], column)
    ensures !OrderFree(header, column)
  {
    SwapReorders(|header|, at, other);
    var order := Swap(|header|, at, other);
    var row := seq(|header|, k requires 0 <= k < |header| => if k == at then "a" else "");
    FirstNamingAt(header, column, at);
    FirstNamingAt(Reordered(header, order), column, at);
    assert CellAt(row, header, column) == Some("a");
    assert CellAt(Reordered(row, order), Reordered(header, order), column) == Some("");
  }

  /** When no two header cells compete for a column, the columns may come in any order: every data
      row as wide as the header gives the same library row. */
  lemma ColumnOrderIrrelevant(header: seq<string>, row: seq<string>, order: seq<nat>, source: string, number: NumberReader)
    requires |row| == |header| && Reorders(order, |header|) && forall c :: AtMostOneCellNames(header, c)
    ensures BuildRow(Reordered(row, order), Reordered(header, order), source, number) == BuildRow(row, header, source, number)
  {
    forall c ensures CellAt(Reordered(row, order), Reordered(header, order), c) == CellAt(row, header, c) {
      assert AtMostOneCellNames(header, c);
      ReorderedCell(header, row, order, c);
    }
  }

  predicate AsWide(rows: seq<seq<string>>, width: nat) {
    forall i :: 0 <= i < |rows| ==> |rows[i]| == width
  }

  function ReorderedAll(rows: seq<seq<string>>, order: seq<nat>, width: nat): (reordered: seq<seq<string>>)
    requires Reorders(order, width) && AsWide(rows, width)
    ensures |reordered| == |rows| && forall i :: 0 <= i < |rows| ==> reordered[i] == Reordered(rows[i], order)
  {
    if rows == [] then [] else [Reordered(rows[0], order)] + ReorderedAll(rows[1..], order, width)
  }

  lemma {:induction false} ReorderedBuilt(header: seq<string>, data: seq<seq<string>>, order: seq<nat>, source: string, number: NumberReader)
    requires Reorders(order, |header|) && AsWide(data, |header|) && forall c :: AtMostOneCellNames(header, c)
    ensures Built(ReorderedAll(data, order, |header|), Builder(Reordered(header, order), source, number))
      == Built(data, Builder(header, source, number))
    decreases |data|
  {
    if data != [] {
      ColumnOrderIrrelevant(header, data[0], order, source, number);
      ReorderedBuilt(header, data[1..], order, source, number);
      assert ReorderedAll(data, order, |header|)[1..] == ReorderedAll(data[1..], order, |header|);
    }
  }

  lemma ReorderedPortable(row: seq<string>, order: seq<nat>)
    requires Reorders(order, |row|) && Portable(row)
    ensures Portable(Reordered(row, order))
  {
  }

  lemma ReorderedRowsPortable(rows: seq<seq<string>>, order: seq<nat>, width: nat)
    requires Reorders(order, width) && AsWide(rows, width) && AllPortable(rows)
    ensures AllPortable(ReorderedAll(rows, order, width))
  {
    forall i | 0 <= i < |rows| ensures Portable(ReorderedAll(rows, order, width)[i]) {
      ReorderedPortable(rows[i], order);
    }
  }

  lemma ReorderedDocumentPortable(header: seq<string>, data: seq<seq<string>>, order: seq<nat>)
    requires Reorders(order, |header|) && AsWide(data, |header|) && AllPortable([header] + data)
    ensures AllPortable([Reordered(header, order)] + ReorderedAll(data, order, |header|))
  {
    assert ([header] + data)[0] == header;
    assert AllPortable(data) by {
      assert forall i :: 0 <= i < |data| ==> data[i] == ([header] + data)[i + 1];
    }
    ReorderedPortable(header, order);
    ReorderedRowsPortable(data, order, |header|);
  }

  lemma ReorderedNaming(header: seq<string>, order: seq<nat>, column: Column)
    requires Reorders(order, |header|)
    ensures FirstNaming(Reordered(header, order), column).None? <==> FirstNaming(header, column).None?
  {
    var header' := Reordered(header, order);
    FirstNamingFinds(header, column);
    FirstNamingFinds(header', column);
    if i :| 0 <= i < |header| && Names(header[i], column) {
      assert i in order;
      var k :| 0 <= k < |order| && order[k] == i;
      assert Names(header'[k], column);
    } else {
      forall k | 0 <= k < |header'| ensures !Names(header'[k], column) {
      }
    }
  }

  /** A whole price book: with unambiguous headers and data rows as wide as the header row, printing
      the columns in any other order gives the same book, and the same refusals. */
  lemma BookColumnOrderIrrelevant(header: seq<string>, data: seq<seq<string>>, order: seq<nat>, eol: string, bom: bool,
      maxRows: nat, source: string, number: NumberReader)
    requires IsLineBreak(eol) && AllPortable([header] + data) && AsWide(data, |header|)
    requires Reorders(order, |header|) && forall c :: AtMostOneCellNames(header, c)
    ensures Book(Document([Reordered(header, order)] + ReorderedAll(data, order, |header|), eol, bom), maxRows, source, number)
      == Book(Document([header] + data, eol, bom), maxRows, source, number)
  {
    var header', data' := Reordered(header, order), ReorderedAll(data, order, |header|);
    ReorderedDocumentPortable(header, data, order);
    PrintedBook(header, data, eol, bom, maxRows, source, number);
    PrintedBook(header', data', eol, bom, maxRows, source, number);
    ReorderedNaming(header, order, Code);
    ReorderedBuilt(header, data, order, source, number);
  }
}
