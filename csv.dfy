/** The CSV layout of write_csv (scripts/extract_tagged_rois.py): the header line,
    whose length and area headings name the run's unit, and one line per row with
    one cell per column. Writing the file is not part of this model. */
module Csv {
  import opened Common
  import opened RowData
  import opened PointList

  // ---------------------------------------------------------------------------
  // str.replace

  /** `s.replace(pat, rep)`: every occurrence of pat, found left to right and
      without overlaps, is replaced by rep. */
  function ReplaceAll(s: string, pat: string, rep: string): string
    requires |pat| > 0
    decreases |s|
  {
    if |s| < |pat| then s
    else if s[..|pat|] == pat then rep + ReplaceAll(s[|pat|..], pat, rep)
    else [s[0]] + ReplaceAll(s[1..], pat, rep)
  }

  /** A pattern that starts with a comma cannot start inside a comma-free prefix. */
  lemma {:induction false} ReplaceSkip(x: string, y: string, pat: string, rep: string)
    requires |pat| > 0 && pat[0] == ',' && ',' !in x
    ensures ReplaceAll(x + y, pat, rep) == x + ReplaceAll(y, pat, rep)
    decreases |x|
  {
    var s := x + y;
    if x == [] {
      assert s == y;
    } else if |s| < |pat| {
      assert ReplaceAll(s, pat, rep) == s;
      assert ReplaceAll(y, pat, rep) == y;
    } else {
      assert s[..|pat|] != pat by {
        assert s[..|pat|][0] == x[0];
      }
      assert ReplaceAll(s, pat, rep) == [x[0]] + ReplaceAll(s[1..], pat, rep);
      assert s[1..] == x[1..] + y;
      ReplaceSkip(x[1..], y, pat, rep);
    }
  }

  /** ",x..." only starts with ",a," when x is a: between two commas there are no others. */
  lemma FieldMismatch(x: string, a: string, tail: string)
    requires ',' !in x && ',' !in a
    requires x != a || tail == []
    requires tail == [] || tail[0] == ','
    ensures var s, pat := [','] + x + tail, Delimited(a);
      |s| < |pat| || s[..|pat|] != pat
  {
    var s, pat := [','] + x + tail, Delimited(a);
    if |s| >= |pat| {
      if |x| == |a| {
        var j :| 0 <= j < |x| && x[j] != a[j];
        assert s[..|pat|][j + 1] != pat[j + 1];
      } else if |x| < |a| {
        assert a[|x|] in a;
        assert s[..|pat|][|x| + 1] != pat[|x| + 1];
      } else {
        assert x[|a|] in x;
        assert s[..|pat|][|a| + 1] != pat[|a| + 1];
      }
    }
  }

  /** ",a," */
  function Delimited(a: string): string
  {
    "," + a + ","
  }

  predicate CommaFree(parts: seq<string>)
  {
    forall i :: 0 <= i < |parts| ==> ',' !in parts[i]
  }

  /** A comma-separated list in which no inner item is a keeps nothing to replace. */
  lemma {:induction false} NoMatchJoined(parts: seq<string>, a: string, rep: string)
    requires CommaFree(parts) && ',' !in a
    requires forall i :: 0 < i < |parts| - 1 ==> parts[i] != a
    ensures ReplaceAll(Join(parts, ','), Delimited(a), rep) == Join(parts, ',')
    decreases |parts|
  {
    var pat := Delimited(a);
    if |parts| == 1 {
      ReplaceSkip(parts[0], [], pat, rep);
      assert parts[0] + [] == parts[0];
    } else if |parts| > 1 {
      var rest := parts[1..];
      var tail := if |rest| == 1 then [] else [','] + Join(rest[1..], ',');
      assert Join(rest, ',') == rest[0] + tail;
      assert Join(parts, ',') == parts[0] + ([','] + Join(rest, ','));
      ReplaceSkip(parts[0], [','] + Join(rest, ','), pat, rep);
      FieldMismatch(rest[0], a, tail);
      var s := [','] + Join(rest, ',');
      assert s == [','] + rest[0] + tail;
      assert s[1..] == Join(rest, ',');
      NoMatchJoined(rest, a, rep);
    }
  }

  /** `sep.join` of a list with a first item and at least one more. */
  lemma JoinCons(first: string, rest: seq<string>, sep: char)
    requires |rest| > 0
    ensures Join([first] + rest, sep) == first + [sep] + Join(rest, sep)
  {
    assert ([first] + rest)[1..] == rest;
  }

  /** The scan at the comma before an item other than a passes that comma. */
  lemma PassComma(items: seq<string>, a: string, rep: string)
    requires CommaFree(items) && ',' !in a && |items| > 0
    requires items[0] != a || |items| == 1
    ensures ReplaceAll([','] + Join(items, ','), Delimited(a), rep) == [','] + ReplaceAll(Join(items, ','), Delimited(a), rep)
  {
    var tail := if |items| == 1 then [] else [','] + Join(items[1..], ',');
    if |items| > 1 {
      JoinCons(items[0], items[1..], ',');
      assert [items[0]] + items[1..] == items;
    }
    assert Join(items, ',') == items[0] + tail;
    FieldMismatch(items[0], a, tail);
    var s := [','] + Join(items, ',');
    assert s == [','] + items[0] + tail;
    assert s[1..] == Join(items, ',');
  }

  /** The scan at ",a," replaces it and goes on after its second comma. */
  lemma ReplaceLead(items: seq<string>, a: string, b: string)
    requires |items| > 1 && items[0] == a
    ensures ReplaceAll([','] + Join(items, ','), Delimited(a), Delimited(b))
         == Delimited(b) + ReplaceAll(Join(items[1..], ','), Delimited(a), Delimited(b))
  {
    var more := items[1..];
    JoinCons(a, more, ',');
    assert [a] + more == items;
    assert [','] + Join(items, ',') == Delimited(a) + Join(more, ',');
    ReplaceAtStart(Delimited(a), Join(more, ','), Delimited(b));
  }

  /** An occurrence at the very start is replaced first. */
  lemma ReplaceAtStart(pat: string, rest: string, rep: string)
    requires |pat| > 0
    ensures ReplaceAll(pat + rest, pat, rep) == rep + ReplaceAll(rest, pat, rep)
  {
    var s := pat + rest;
    assert s[..|pat|] == pat && s[|pat|..] == rest;
  }

  /** Writing b for the first item of a list, with a comma before it. */
  lemma RejoinLead(items: seq<string>, b: string)
    requires |items| > 1
    ensures [','] + Join(items[0 := b], ',') == Delimited(b) + Join(items[1..], ',')
  {
    JoinCons(b, items[1..], ',');
    assert items[0 := b] == [b] + items[1..];
  }

  /** The scan at ",a," when a occurs no later in the list. */
  lemma ReplaceHere(items: seq<string>, a: string, b: string)
    requires CommaFree(items) && ',' !in a
    requires |items| > 1 && items[0] == a
    requires forall i :: 0 < i < |items| - 1 ==> items[i] != a
    ensures ReplaceAll([','] + Join(items, ','), Delimited(a), Delimited(b)) == [','] + Join(items[0 := b], ',')
  {
    ReplaceLead(items, a, b);
    var more := items[1..];
    assert CommaFree(more);
    NoMatchJoined(more, a, Delimited(b));
    RejoinLead(items, b);
  }

  /** In a comma-separated list whose only inner item equal to a is item k,
      replacing ",a," by ",b," replaces that item and nothing else. */
  lemma {:induction false} ReplaceJoined(parts: seq<string>, k: nat, a: string, b: string)
    requires CommaFree(parts) && ',' !in a
    requires 0 < k < |parts| - 1 && parts[k] == a
    requires forall i :: 0 < i < |parts| - 1 && i != k ==> parts[i] != a
    ensures ReplaceAll(Join(parts, ','), Delimited(a), Delimited(b)) == Join(parts[k := b], ',')
    decreases k
  {
    var pat, rep := Delimited(a), Delimited(b);
    var rest := parts[1..];
    assert CommaFree(rest);
    JoinCons(parts[0], rest, ',');
    assert [parts[0]] + rest == parts;
    assert Join(parts, ',') == parts[0] + ([','] + Join(rest, ','));
    ReplaceSkip(parts[0], [','] + Join(rest, ','), pat, rep);
    var after := rest[k - 1 := b];
    assert parts[k := b] == [parts[0]] + after;
    JoinCons(parts[0], after, ',');
    assert Join(parts[k := b], ',') == parts[0] + ([','] + Join(after, ','));
    if k == 1 {
      ReplaceHere(rest, a, b);
    } else {
      PassComma(rest, a, rep);
      ReplaceJoined(rest, k - 1, a, b);
    }
    assert ReplaceAll([','] + Join(rest, ','), pat, rep) == [','] + Join(after, ',');
  }

  // ---------------------------------------------------------------------------
  // The header

  /** COLUMN_NAMES */
  function ColumnNames(): (r: seq<string>)
    ensures |r| == |Columns|
    ensures forall i :: 0 <= i < |Columns| ==> r[i] == Name(Columns[i])
  {
    seq(|Columns|, i requires 0 <= i < |Columns| => Name(Columns[i]))
  }

  /** The unit written in the header: the run's symbol, or "pixels". */
  function UnitSymbol(symbol: Option<string>): string
  {
    if symbol.None? then "pixels" else symbol.value
  }

  /** The header line: the column names joined by commas, then ",length," and
      ",area," each replaced by the heading with the unit. */
  function Header(symbol: Option<string>): string
  {
    var unit := UnitSymbol(symbol);
    var names := Join(ColumnNames(), ',');
    var withLength := ReplaceAll(names, Delimited("length"), Delimited("length (" + unit + ")"));
    ReplaceAll(withLength, Delimited("area"), Delimited("area (" + unit + ")"))
  }

  /** The heading of each column: its name, with the unit after length and area. */
  function Heading(f: Field, unit: string): string
  {
    if f == Length then "length (" + unit + ")"
    else if f == Area then "area (" + unit + ")"
    else Name(f)
  }

  function Headings(unit: string): (r: seq<string>)
    ensures |r| == |Columns|
  {
    seq(|Columns|, i requires 0 <= i < |Columns| => Heading(Columns[i], unit))
  }

  lemma NameHasNoComma(f: Field)
    ensures ',' !in Name(f)
  {
  }

  /** Only Length and Area are named "length" and "area". */
  lemma NamesOfLengthAndArea(f: Field)
    ensures Name(f) == "length" <==> f == Length
    ensures Name(f) == "area" <==> f == Area
  {
  }

  /** Length and Area appear once each among the columns, at positions 10 and 9. */
  lemma LengthAndAreaColumns()
    ensures Columns[9] == Area && Columns[10] == Length
    ensures forall i :: 0 <= i < |Columns| && i != 10 ==> Columns[i] != Length
    ensures forall i :: 0 <= i < |Columns| && i != 9 ==> Columns[i] != Area
  {
  }

  /** The column names hold no comma, and "length" and "area" are names 10 and 9 only. */
  lemma ColumnNamesFacts()
    ensures CommaFree(ColumnNames())
    ensures ColumnNames()[10] == "length" && ColumnNames()[9] == "area"
    ensures forall i :: 0 <= i < |Columns| && i != 10 ==> ColumnNames()[i] != "length"
    ensures forall i :: 0 <= i < |Columns| && i != 9 ==> ColumnNames()[i] != "area"
  {
    var names := ColumnNames();
    LengthAndAreaColumns();
    forall i | 0 <= i < |Columns|
      ensures ',' !in names[i]
      ensures i != 10 ==> names[i] != "length"
      ensures i != 9 ==> names[i] != "area"
    {
      NameHasNoComma(Columns[i]);
      NamesOfLengthAndArea(Columns[i]);
    }
  }

  /** The column names with the length heading in place of "length". */
  function WithLengthHeading(unit: string): seq<string>
  {
    ColumnNames()[10 := Heading(Length, unit)]
  }

  /** The first replacement turns the length name into its heading. */
  lemma LengthReplaced(unit: string)
    requires ',' !in unit
    ensures ReplaceAll(Join(ColumnNames(), ','), Delimited("length"), Delimited(Heading(Length, unit)))
         == Join(WithLengthHeading(unit), ',')
  {
    ColumnNamesFacts();
    ReplaceJoined(ColumnNames(), 10, "length", Heading(Length, unit));
  }

  /** The second replacement turns the area name into its heading, which
      leaves every column with its heading. */
  lemma AreaReplaced(unit: string)
    requires ',' !in unit
    ensures ReplaceAll(Join(WithLengthHeading(unit), ','), Delimited("area"), Delimited(Heading(Area, unit)))
         == Join(Headings(unit), ',')
  {
    var names1 := WithLengthHeading(unit);
    ColumnNamesFacts();
    assert names1[10][0] == 'l';
    assert CommaFree(names1);
    ReplaceJoined(names1, 9, "area", Heading(Area, unit));
    LengthAndAreaColumns();
    var headings := Headings(unit);
    forall i | 0 <= i < |Columns|
      ensures names1[9 := Heading(Area, unit)][i] == headings[i]
    {
    }
    assert names1[9 := Heading(Area, unit)] == headings;
  }

  /** The header is the headings joined by commas, for any unit symbol without a
      comma: the two replacements hit exactly the length and area names. */
  lemma HeaderIsHeadings(symbol: Option<string>)
    requires ',' !in UnitSymbol(symbol)
    ensures Header(symbol) == Join(Headings(UnitSymbol(symbol)), ',')
  {
    LengthReplaced(UnitSymbol(symbol));
    AreaReplaced(UnitSymbol(symbol));
  }

  lemma HeadingsCommaFree(unit: string)
    requires ',' !in unit
    ensures CommaFree(Headings(unit))
  {
    var h := Headings(unit);
    forall i | 0 <= i < |h|
      ensures ',' !in h[i]
    {
      NameHasNoComma(Columns[i]);
    }
  }

  /** Reading the header back by commas gives one heading per column. */
  lemma HeaderSplits(symbol: Option<string>)
    requires ',' !in UnitSymbol(symbol)
    ensures Split(Header(symbol), ',') == Headings(UnitSymbol(symbol))
  {
    var headings := Headings(UnitSymbol(symbol));
    HeaderIsHeadings(symbol);
    HeadingsCommaFree(UnitSymbol(symbol));
    SplitJoin(headings, ',');
  }

  // ---------------------------------------------------------------------------
  // The row lines

  /** `str(n)` for an int: decimal digits, with a leading '-' when negative. */
  function IntText(n: int): (r: string)
    ensures ',' !in r
    decreases if n < 0 then -n + 1 else n
  {
    if n < 0 then "-" + IntText(-n)
    else if n < 10 then ["0123456789"[n]]
    else IntText(n / 10) + ["0123456789"[n % 10]]
  }

  /** `str(value)`: a str as it is, an int in decimal, a float as `showReal`
      writes it (Python's shortest repr, not modelled). */
  function CellText(c: Cell, showReal: real -> string): string
  {
    match c
    case StrCell(s) => s
    case IntCell(i) => IntText(i)
    case RealCell(r) => showReal(r)
  }

  /** `[str(row.get(name, "")) for name in COLUMN_NAMES]` */
  function RowCells(row: Row, showReal: real -> string): (r: seq<string>)
    ensures |r| == |Columns|
  {
    seq(|Columns|, i requires 0 <= i < |Columns| =>
      if Columns[i] in row then CellText(row[Columns[i]], showReal) else "")
  }

  function RowLine(row: Row, showReal: real -> string): string
  {
    Join(RowCells(row, showReal), ',')
  }

  /** Every column gets a cell: the entry's text when the row has the key, ""
      when it lacks it. */
  lemma RowCellsByColumn(row: Row, showReal: real -> string, i: nat)
    requires i < |Columns|
    ensures Columns[i] !in row ==> RowCells(row, showReal)[i] == ""
    ensures Columns[i] in row ==> RowCells(row, showReal)[i] == CellText(row[Columns[i]], showReal)
  {
  }

  /** The 'Text' entry add_shape_coords writes is not a column: it never changes a line. */
  lemma TextValueNotWritten(row: Row, v: Cell, showReal: real -> string)
    ensures RowCells(row[TextValue := v], showReal) == RowCells(row, showReal)
  {
    assert forall i :: 0 <= i < |Columns| ==> Columns[i] != TextValue;
  }

  /** When no cell holds a comma, the line reads back as its cells. */
  lemma RowLineSplits(row: Row, showReal: real -> string)
    requires CommaFree(RowCells(row, showReal))
    ensures Split(RowLine(row, showReal), ',') == RowCells(row, showReal)
  {
    SplitJoin(RowCells(row, showReal), ',');
  }

  /** The lines of the file: the header, then one line per row. */
  function CsvLines(header: string, rows: seq<Row>, showReal: real -> string): seq<string>
  {
    if rows == [] then [header]
    else CsvLines(header, DropLast(rows), showReal) + [RowLine(Last(rows), showReal)]
  }

  /** The header comes first and row i is on line i + 1. */
  lemma {:induction false} CsvLinesLayout(header: string, rows: seq<Row>, showReal: real -> string)
    ensures |CsvLines(header, rows, showReal)| == |rows| + 1
    ensures CsvLines(header, rows, showReal)[0] == header
    ensures forall i :: 0 <= i < |rows| ==> CsvLines(header, rows, showReal)[i + 1] == RowLine(rows[i], showReal)
  {
    if rows != [] {
      CsvLinesLayout(header, DropLast(rows), showReal);
    }
  }

  /** write_csv's loop over export_data. */
  method WriteLines(rows: seq<Row>, symbol: Option<string>, showReal: real -> string)
    returns (lines: seq<string>)
    ensures lines == CsvLines(Header(symbol), rows, showReal)
  {
    var header := Header(symbol);
    lines := [header];
    for i := 0 to |rows|
      invariant lines == CsvLines(header, rows[..i], showReal)
    {
      assert DropLast(rows[..i + 1]) == rows[..i];
      lines := lines + [Join(RowCells(rows[i], showReal), ',')];
    }
    assert rows[..|rows|] == rows;
  }

  /** The file's text: the lines joined by newlines. */
  function CsvText(rows: seq<Row>, symbol: Option<string>, showReal: real -> string): string
  {
    Join(CsvLines(Header(symbol), rows, showReal), '\n')
  }
}
