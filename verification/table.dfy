/**
 * TABLE queries (InterpretTableQuery, main.go:393-501): one header per column
 * (TABLE adds a leading "File" column), one row per file whose metadata
 * satisfies the WHERE conditions, every column padded to its widest cell, and
 * a dashed separator under the header line. Files arrive already resolved as
 * their base name and their metadata.
 */
module Table {
  import opened GoStrings
  import opened Values
  import opened Ast
  import opened Conditions

  /** A resolved file: the base name of its path and its metadata. */
  datatype Doc = Doc(baseName: string, metadata: Metadata)

  /** tablePadString (main.go:499-501): `str` followed by spaces up to `length` characters. */
  function TablePad(str: string, length: nat): (r: string)
    requires |str| <= length
    ensures |r| == length
    ensures r[..|str|] == str
    ensures forall k :: |str| <= k < length ==> r[k] == ' '
  {
    str + Repeat(' ', length - |str|)
  }

  /** The header cells (main.go:397-403). */
  function HeaderCells(q: Query): (r: seq<string>)
    ensures |r| == |q.columns| + (if q.qtype == TableQuery then 1 else 0)
  {
    (if q.qtype == TableQuery then ["File"] else []) + seq(|q.columns|, k requires 0 <= k < |q.columns| => q.columns[k].alias)
  }

  /** The `%v` form of a metadata value, or "" when the file does not have the key (main.go:459-465). */
  function Cell(md: Metadata, name: string): string {
    if name in md then Stringify(md[name]) else ""
  }

  /** The row of one file (main.go:453-466). */
  function RowCells(q: Query, d: Doc): (r: seq<string>)
    ensures |r| == |HeaderCells(q)|
    ensures q.qtype == TableQuery ==> r[0] == d.baseName
  {
    (if q.qtype == TableQuery then [d.baseName] else []) + seq(|q.columns|, k requires 0 <= k < |q.columns| => Cell(d.metadata, q.columns[k].name))
  }

  /** Whether a file gets a row: there is no WHERE clause, or its metadata satisfies it with an empty item (main.go:446-451). */
  predicate Selected(q: Query, d: Doc) {
    q.where.None? || Eval("", d.metadata, q.where.value)
  }

  /** The rows of the selected files, in file order. */
  function TableRows(q: Query, docs: seq<Doc>): (rows: seq<seq<string>>)
    ensures |rows| <= |docs|
    ensures forall j :: 0 <= j < |rows| ==> |rows[j]| == |HeaderCells(q)|
    decreases |docs|
  {
    if docs == [] then []
    else
      var n := |docs| - 1;
      TableRows(q, docs[..n]) + (if Selected(q, docs[n]) then [RowCells(q, docs[n])] else [])
  }

  predicate Rectangular(width: nat, rows: seq<seq<string>>) {
    forall j :: 0 <= j < |rows| ==> |rows[j]| == width
  }

  function Max(a: nat, b: nat): nat {
    if a < b then b else a
  }

  /** The width of column `k`: its longest cell, the header included (main.go:406-409, 468-473). */
  function ColumnWidth(headers: seq<string>, rows: seq<seq<string>>, k: nat): nat
    requires k < |headers| && Rectangular(|headers|, rows)
    decreases |rows|
  {
    if rows == [] then |headers[k]|
    else Max(ColumnWidth(headers, rows[..|rows| - 1], k), |rows[|rows| - 1][k]|)
  }

  function Widths(headers: seq<string>, rows: seq<seq<string>>): (w: seq<nat>)
    requires Rectangular(|headers|, rows)
    ensures |w| == |headers|
  {
    seq(|headers|, k requires 0 <= k < |headers| => ColumnWidth(headers, rows, k))
  }

  /** Whether every cell fits the width of its column. */
  predicate Fits(cells: seq<string>, widths: seq<nat>) {
    |cells| == |widths| && forall k :: 0 <= k < |cells| ==> |cells[k]| <= widths[k]
  }

  /** The cells of one line, each as "| " + padded cell + " " (main.go:479-481, 492-494). */
  function CellsText(cells: seq<string>, widths: seq<nat>): string
    requires Fits(cells, widths)
    decreases |cells|
  {
    if cells == [] then ""
    else
      var n := |cells| - 1;
      CellsText(cells[..n], widths[..n]) + "| " + TablePad(cells[n], widths[n]) + " "
  }

  function Line(cells: seq<string>, widths: seq<nat>): string
    requires Fits(cells, widths)
  {
    CellsText(cells, widths) + "|\n"
  }

  /** The separator cells, "|" followed by width+2 dashes (main.go:484-487). */
  function DashesText(widths: seq<nat>): string
    decreases |widths|
  {
    if widths == [] then ""
    else
      var n := |widths| - 1;
      DashesText(widths[..n]) + "|" + Repeat('-', widths[n] + 2)
  }

  function Separator(widths: seq<nat>): string {
    DashesText(widths) + "|\n"
  }

  function RowLines(rows: seq<seq<string>>, widths: seq<nat>): string
    requires forall j :: 0 <= j < |rows| ==> Fits(rows[j], widths)
    decreases |rows|
  {
    if rows == [] then ""
    else
      var n := |rows| - 1;
      RowLines(rows[..n], widths) + Line(rows[n], widths)
  }

  // ---------------------------------------------------------------------------
  // Widths

  /**
   * A column is exactly as wide as its widest cell: no cell (header or row) is
   * longer, and the header or some row reaches the width.
   */
  lemma {:induction false} ColumnWidthIsMax(headers: seq<string>, rows: seq<seq<string>>, k: nat)
    requires k < |headers| && Rectangular(|headers|, rows)
    ensures |headers[k]| <= ColumnWidth(headers, rows, k)
    ensures forall j :: 0 <= j < |rows| ==> |rows[j][k]| <= ColumnWidth(headers, rows, k)
    ensures ColumnWidth(headers, rows, k) == |headers[k]| ||
      exists j :: 0 <= j < |rows| && |rows[j][k]| == ColumnWidth(headers, rows, k)
    decreases |rows|
  {
    if rows != [] {
      var n := |rows| - 1;
      ColumnWidthIsMax(headers, rows[..n], k);
      var w := ColumnWidth(headers, rows[..n], k);
      if w != |headers[k]| && w >= |rows[n][k]| {
        var j :| 0 <= j < n && |rows[..n][j][k]| == w;
        assert |rows[j][k]| == w;
      }
    }
  }

  /** Every header and every row fits the computed widths. */
  lemma WidthsFit(headers: seq<string>, rows: seq<seq<string>>)
    requires Rectangular(|headers|, rows)
    ensures Fits(headers, Widths(headers, rows))
    ensures forall j :: 0 <= j < |rows| ==> Fits(rows[j], Widths(headers, rows))
  {
    forall k | 0 <= k < |headers|
      ensures |headers[k]| <= ColumnWidth(headers, rows, k)
      ensures forall j :: 0 <= j < |rows| ==> |rows[j][k]| <= ColumnWidth(headers, rows, k)
    {
      ColumnWidthIsMax(headers, rows, k);
    }
  }

  // ---------------------------------------------------------------------------
  // Line lengths

  /** The length every line of a table with these widths has: three per column around its cell, and "|\n". */
  function LineLength(widths: seq<nat>): nat
    decreases |widths|
  {
    if widths == [] then 2 else LineLength(widths[..|widths| - 1]) + widths[|widths| - 1] + 3
  }

  lemma {:induction false} CellsTextLength(cells: seq<string>, widths: seq<nat>)
    requires Fits(cells, widths)
    ensures |CellsText(cells, widths)| + 2 == LineLength(widths)
    decreases |cells|
  {
    if cells != [] {
      var n := |cells| - 1;
      CellsTextLength(cells[..n], widths[..n]);
    }
  }

  lemma {:induction false} DashesTextLength(widths: seq<nat>)
    ensures |DashesText(widths)| + 2 == LineLength(widths)
    decreases |widths|
  {
    if widths != [] {
      DashesTextLength(widths[..|widths| - 1]);
    }
  }

  /** The header line, the separator and every row line have the same length, so the columns line up. */
  lemma LinesAligned(cells: seq<string>, widths: seq<nat>)
    requires Fits(cells, widths)
    ensures |Line(cells, widths)| == |Separator(widths)| == LineLength(widths)
  {
    CellsTextLength(cells, widths);
    DashesTextLength(widths);
  }

  // ---------------------------------------------------------------------------
  // Which files get a row

  /** Every row belongs to a file whose metadata satisfies the WHERE clause, in file order. */
  lemma {:induction false} RowsOfSelected(q: Query, docs: seq<Doc>) returns (idx: seq<nat>)
    ensures var rows := TableRows(q, docs);
      |idx| == |rows| &&
      (forall k :: 0 <= k < |idx| ==> idx[k] < |docs| && Selected(q, docs[idx[k]]) && rows[k] == RowCells(q, docs[idx[k]])) &&
      (forall k, l :: 0 <= k < l < |idx| ==> idx[k] < idx[l]) &&
      (forall j :: 0 <= j < |docs| && Selected(q, docs[j]) ==> j in idx)
    decreases |docs|
  {
    if docs == [] {
      idx := [];
    } else {
      var n := |docs| - 1;
      var prev := RowsOfSelected(q, docs[..n]);
      assert forall j :: 0 <= j < n ==> docs[..n][j] == docs[j];
      if Selected(q, docs[n]) {
        idx := prev + [n];
      } else {
        idx := prev;
      }
    }
  }

  /** Without a WHERE clause every file gets a row. */
  lemma {:induction false} AllRowsWithoutWhere(q: Query, docs: seq<Doc>)
    requires q.where.None?
    ensures |TableRows(q, docs)| == |docs|
    decreases |docs|
  {
    if docs != [] {
      AllRowsWithoutWhere(q, docs[..|docs| - 1]);
    }
  }

  // ---------------------------------------------------------------------------
  // InterpretTableQuery

  /** The text InterpretTableQuery returns for the files `docs`. */
  function TableText(q: Query, docs: seq<Doc>): string {
    var headers := HeaderCells(q);
    var rows := TableRows(q, docs);
    var widths := Widths(headers, rows);
    WidthsFit(headers, rows);
    Line(headers, widths) + Separator(widths) + RowLines(rows, widths)
  }

  /** InterpretTableQuery after the files are resolved (main.go:393-497). */
  method InterpretTableQuery(q: Query, docs: seq<Doc>) returns (out: string)
    ensures out == TableText(q, docs)
  {
    var headers := BuildHeaders(q);
    var maxWidths := new nat[|headers|];
    var i := 0;
    while i < |headers|
      invariant 0 <= i <= |headers|
      invariant forall k :: 0 <= k < i ==> maxWidths[k] == |headers[k]|
    {
      maxWidths[i] := |headers[i]|;
      i := i + 1;
    }
    var rows: seq<seq<string>> := [];
    i := 0;
    while i < |docs|
      invariant 0 <= i <= |docs|
      invariant rows == TableRows(q, docs[..i])
      invariant forall k :: 0 <= k < |headers| ==> maxWidths[k] == ColumnWidth(headers, rows, k)
    {
      assert docs[..i + 1][..i] == docs[..i];
      var keep := true;
      if q.where.Some? {
        keep := ApplyConditions("", docs[i].metadata, q.where.value);
      }
      if keep {
        var row := BuildRow(q, docs[i]);
        Widen(maxWidths, headers, rows, row);
        rows := rows + [row];
      }
      i := i + 1;
    }
    assert docs[..i] == docs;
    var widths := maxWidths[..];
    assert widths == Widths(headers, rows);
    WidthsFit(headers, rows);
    var headerLine := WriteLine(headers, widths);
    var separator := WriteSeparator(widths);
    var body := WriteRows(rows, widths);
    out := headerLine + separator + body;
  }

  /** The header loop of main.go:397-403. */
  method BuildHeaders(q: Query) returns (headers: seq<string>)
    ensures headers == HeaderCells(q)
  {
    headers := [];
    if q.qtype == TableQuery {
      headers := headers + ["File"];
    }
    ghost var start := headers;
    var i := 0;
    while i < |q.columns|
      invariant 0 <= i <= |q.columns|
      invariant headers == start + seq(i, k requires 0 <= k < i => q.columns[k].alias)
    {
      headers := headers + [q.columns[i].alias];
      i := i + 1;
    }
  }

  /** The row loop of main.go:453-466. */
  method BuildRow(q: Query, d: Doc) returns (row: seq<string>)
    ensures row == RowCells(q, d)
  {
    row := [];
    if q.qtype == TableQuery {
      row := row + [d.baseName];
    }
    ghost var start := row;
    var i := 0;
    while i < |q.columns|
      invariant 0 <= i <= |q.columns|
      invariant row == start + seq(i, k requires 0 <= k < i => Cell(d.metadata, q.columns[k].name))
    {
      var colName := q.columns[i].name;
      if colName in d.metadata {
        row := row + [Stringify(d.metadata[colName])];
      } else {
        row := row + [""];
      }
      i := i + 1;
    }
  }

  /** The width update of main.go:468-473: each column grows to fit the new row's cell. */
  method Widen(maxWidths: array<nat>, headers: seq<string>, rows: seq<seq<string>>, row: seq<string>)
    requires maxWidths.Length == |headers| == |row| && Rectangular(|headers|, rows)
    requires forall k :: 0 <= k < |headers| ==> maxWidths[k] == ColumnWidth(headers, rows, k)
    modifies maxWidths
    ensures Rectangular(|headers|, rows + [row])
    ensures forall k :: 0 <= k < |headers| ==> maxWidths[k] == ColumnWidth(headers, rows + [row], k)
  {
    var next := rows + [row];
    assert next[..|rows|] == rows;
    var i := 0;
    while i < |row|
      invariant 0 <= i <= |row|
      invariant forall k :: 0 <= k < i ==> maxWidths[k] == ColumnWidth(headers, next, k)
      invariant forall k :: i <= k < |headers| ==> maxWidths[k] == ColumnWidth(headers, rows, k)
    {
      if |row[i]| > maxWidths[i] {
        maxWidths[i] := |row[i]|;
      }
      i := i + 1;
    }
  }

  /** One table line (main.go:479-482, 492-495). */
  method WriteLine(cells: seq<string>, widths: seq<nat>) returns (s: string)
    requires Fits(cells, widths)
    ensures s == Line(cells, widths)
  {
    s := "";
    var i := 0;
    while i < |cells|
      invariant 0 <= i <= |cells|
      invariant s == CellsText(cells[..i], widths[..i])
    {
      assert cells[..i + 1][..i] == cells[..i] && widths[..i + 1][..i] == widths[..i];
      s := s + "| " + TablePad(cells[i], widths[i]) + " ";
      i := i + 1;
    }
    assert cells[..i] == cells && widths[..i] == widths;
    s := s + "|\n";
  }

  /** The separator line (main.go:484-488). */
  method WriteSeparator(widths: seq<nat>) returns (s: string)
    ensures s == Separator(widths)
  {
    s := "";
    var i := 0;
    while i < |widths|
      invariant 0 <= i <= |widths|
      invariant s == DashesText(widths[..i])
    {
      assert widths[..i + 1][..i] == widths[..i];
      s := s + "|" + Repeat('-', widths[i] + 2);
      i := i + 1;
    }
    assert widths[..i] == widths;
    s := s + "|\n";
  }

  /** The row lines (main.go:491-496). */
  method WriteRows(rows: seq<seq<string>>, widths: seq<nat>) returns (s: string)
    requires forall j :: 0 <= j < |rows| ==> Fits(rows[j], widths)
    ensures s == RowLines(rows, widths)
  {
    s := "";
    var i := 0;
    while i < |rows|
      invariant 0 <= i <= |rows|
      invariant s == RowLines(rows[..i], widths)
    {
      assert rows[..i + 1][..i] == rows[..i];
      var line := WriteLine(rows[i], widths);
      s := s + line;
      i := i + 1;
    }
    assert rows[..i] == rows;
  }
}
