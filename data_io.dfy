/**
 * Validation of the uploaded spreadsheets (bot/data_io.py): the file-extension check of
 * `_read_table`, the required columns, and the row-by-row checks of `parse_speeds` and
 * `parse_sales`, which stop at the first bad row and report its spreadsheet line.
 *
 * Reading the bytes (pandas' CSV and Excel readers) is not modelled: a `Table` is what the
 * reader returned. Python's `float(str)`, `int(str)` and `str(number)` are parameters
 * (`Conversions`).
 */
module DataIo {
  import opened Outcomes
  import opened Records
  import opened Strings

  /** One row of a table: column name to cell. */
  type Row = map<string, Cell>

  /** A table as pandas returns it: its column names and its rows in order. */
  datatype Table = Table(columns: set<string>, rows: seq<Row>)

  /** `row[column]`; pandas gives every row every column, so the `Missing` default is never read. */
  function Get(row: Row, column: string): Cell
  {
    if column in row then row[column] else Missing
  }

  /** The Python conversions the validation calls on text cells. */
  datatype Conversions = Conversions(
    parseFloat: string -> Option<real>,  // `float(s)`; `None` where it raises
    parseInt: string -> Option<int>,     // `int(s)`; `None` where it raises
    showNumber: real -> string)          // `str(x)` for a number cell

  /** Why a single row is rejected. */
  datatype RowError = BadTime | NonPositiveTime | BadOrders | NegativeOrders | BadWarehouseId

  /**
   * Why a whole file is rejected. Every one is a `ValidationError` except a row failing with
   * `BadWarehouseId`: `int(...)` at bot/data_io.py:45 sits outside the `try`, so it escapes as
   * a plain `ValueError`.
   */
  datatype Failure =
    | UnsupportedFile
    | MissingColumns(columns: seq<string>)
    | RowFailure(line: int, error: RowError)
    | EmptyFile

  // ---------------------------------------------------------------------------------------
  // _read_table: the extension check (bot/data_io.py:12-19)
  // ---------------------------------------------------------------------------------------

  datatype FileKind = Csv | Excel

  /** Which reader `_read_table` picks for `filename`, or `None` when it raises. */
  function FileKindOf(filename: string): Option<FileKind>
  {
    var lower := Lower(filename);
    if EndsWith(lower, ".csv") then Some(Csv)
    else if EndsWith(lower, ".xlsx") || EndsWith(lower, ".xls") then Some(Excel)
    else None
  }

  lemma LowerSuffix(s: string, k: nat)
    requires k <= |s|
    ensures Lower(s)[k..] == Lower(s[k..])
  {
  }

  lemma LowerIdempotent(s: string)
    ensures Lower(Lower(s)) == Lower(s)
  {
    forall k | 0 <= k < |s| ensures LowerChar(LowerChar(s[k])) == LowerChar(s[k]) {
      LowerCharIdempotent(s[k]);
    }
  }

  /** The last `|e|` characters of `filename`, lower-cased, are `e`. */
  predicate HasExtension(filename: string, e: string)
  {
    |e| <= |filename| && Lower(filename[|filename| - |e|..]) == e
  }

  lemma EndsWithLower(filename: string, e: string)
    ensures EndsWith(Lower(filename), e) <==> HasExtension(filename, e)
  {
    if |e| <= |filename| {
      LowerSuffix(filename, |filename| - |e|);
    }
  }

  /**
   * A file is accepted exactly when its name ends in one of the three extensions, compared
   * case-insensitively.
   */
  lemma FileKindAccepts(filename: string)
    ensures FileKindOf(filename).Some? <==>
              HasExtension(filename, ".csv") || HasExtension(filename, ".xlsx") || HasExtension(filename, ".xls")
    ensures FileKindOf(filename) == Some(Csv) <==> HasExtension(filename, ".csv")
  {
    EndsWithLower(filename, ".csv");
    EndsWithLower(filename, ".xlsx");
    EndsWithLower(filename, ".xls");
  }

  /** The check ignores letter case. */
  lemma FileKindCaseInsensitive(filename: string)
    ensures FileKindOf(Lower(filename)) == FileKindOf(filename)
  {
    LowerIdempotent(filename);
  }

  // ---------------------------------------------------------------------------------------
  // Required columns (bot/data_io.py:23-27, 56-60)
  // ---------------------------------------------------------------------------------------

  const SpeedColumns: seq<string> := ["region_code", "region_name", "warehouse_id", "warehouse_name", "time_hours"]
  const SalesColumns: seq<string> := ["region_code", "orders"]

  /** `a` is `b` with some elements deleted, the rest kept in order. */
  predicate SubsequenceOf<T(==)>(a: seq<T>, b: seq<T>)
  {
    if |b| == 0 then |a| == 0
    else
      || SubsequenceOf(a, b[..|b| - 1])
      || (|a| > 0 && a[|a| - 1] == b[|b| - 1] && SubsequenceOf(a[..|a| - 1], b[..|b| - 1]))
  }

  /** The expected columns the table lacks, in expected order. */
  function Absent(expected: seq<string>, columns: set<string>): (missing: seq<string>)
    ensures |missing| <= |expected|
    ensures forall c :: c in missing ==> c in expected && c !in columns
    ensures SubsequenceOf(missing, expected)
  {
    if |expected| == 0 then []
    else
      var c := expected[|expected| - 1];
      var earlier := Absent(expected[..|expected| - 1], columns);
      if c in columns then earlier
      else
        assert (earlier + [c])[..|earlier|] == earlier;
        earlier + [c]
  }

  /** The missing list names exactly the expected columns the table lacks. */
  lemma {:induction false} AbsentExactly(expected: seq<string>, columns: set<string>)
    ensures forall c :: c in Absent(expected, columns) <==> c in expected && c !in columns
  {
    if |expected| > 0 {
      var pre := expected[..|expected| - 1];
      AbsentExactly(pre, columns);
      assert expected == pre + [expected[|expected| - 1]];
    }
  }

  lemma {:induction false} AbsentNone(expected: seq<string>, columns: set<string>)
    requires forall c :: c in expected ==> c in columns
    ensures Absent(expected, columns) == []
  {
    if |expected| > 0 {
      var pre := expected[..|expected| - 1];
      assert forall c :: c in pre ==> c in expected;
      AbsentNone(pre, columns);
    }
  }

  // ---------------------------------------------------------------------------------------
  // Cells (the conversions of bot/data_io.py:31-48, 64-70)
  // ---------------------------------------------------------------------------------------

  /** Python's `int(x)` on a float: truncation toward zero. */
  function Truncate(x: real): (t: int)
    ensures x >= 0.0 ==> t as real <= x < t as real + 1.0
    ensures x < 0.0 ==> t as real - 1.0 < x <= t as real
  {
    if x >= 0.0 then x.Floor else -((-x).Floor)
  }

  /** `float(cell)` for a cell that is not NaN. */
  function FloatOf(c: Cell, conv: Conversions): Option<real>
  {
    match c
    case Missing => None
    case Num(x) => Some(x)
    case Text(s) => conv.parseFloat(s)
  }

  /** `int(cell)`: NaN raises. */
  function IntOf(c: Cell, conv: Conversions): Option<int>
  {
    match c
    case Missing => None
    case Num(x) => Some(Truncate(x))
    case Text(s) => conv.parseInt(s)
  }

  /** `str(cell)`: NaN prints as `nan`. */
  function StrOf(c: Cell, conv: Conversions): string
  {
    match c
    case Missing => "nan"
    case Num(x) => conv.showNumber(x)
    case Text(s) => s
  }

  /** `time_hours`: NaN becomes unreachable, anything else must convert and be positive. */
  function TimeOf(c: Cell, conv: Conversions): Result<Time, RowError>
  {
    if c.Missing? then Ok(Unreachable)
    else
      match FloatOf(c, conv)
      case None => Err(BadTime)
      case Some(x) => if x <= 0.0 then Err(NonPositiveTime) else Ok(Hours(x))
  }

  /**
   * The time check in three cases: a missing time is unreachable, a time that converts is kept
   * exactly when it is positive, and one that does not convert is rejected.
   */
  lemma TimeOfCases(c: Cell, conv: Conversions)
    ensures c.Missing? ==> TimeOf(c, conv) == Ok(Unreachable)
    ensures !c.Missing? && FloatOf(c, conv).Some? ==>
              (TimeOf(c, conv).Ok? <==> FloatOf(c, conv).value > 0.0)
    ensures !c.Missing? && FloatOf(c, conv).Some? && TimeOf(c, conv).Ok? ==>
              TimeOf(c, conv).value == Hours(FloatOf(c, conv).value)
    ensures !c.Missing? && FloatOf(c, conv).None? ==> TimeOf(c, conv) == Err(BadTime)
  {
  }

  /** One row of the speeds table, checked and converted (bot/data_io.py:30-48). */
  function SpeedRowOf(row: Row, conv: Conversions): Result<SpeedRow, RowError>
  {
    match TimeOf(Get(row, "time_hours"), conv)
    case Err(e) => Err(e)
    case Ok(t) =>
      match IntOf(Get(row, "warehouse_id"), conv)
      case None => Err(BadWarehouseId)
      case Some(id) =>
        Ok(SpeedRow(
          Strip(StrOf(Get(row, "region_code"), conv)),
          Strip(StrOf(Get(row, "region_name"), conv)),
          id,
          Strip(StrOf(Get(row, "warehouse_name"), conv)),
          t))
  }

  /** `orders` as evidently intended: it must be a number, and not negative. */
  function OrdersOf(c: Cell, conv: Conversions): Result<real, RowError>
  {
    match FloatOf(c, conv)
    case None => Err(BadOrders)
    case Some(x) => if x < 0.0 then Err(NegativeOrders) else Ok(x)
  }

  /** Every accepted `orders` is a number at least 0; a missing one is rejected. */
  lemma OrdersOfAccepted(c: Cell, conv: Conversions)
    ensures OrdersOf(c, conv).Ok? <==> FloatOf(c, conv).Some? && FloatOf(c, conv).value >= 0.0
    ensures OrdersOf(c, conv).Ok? ==> OrdersOf(c, conv).value == FloatOf(c, conv).value >= 0.0
    ensures OrdersOf(Missing, conv) == Err(BadOrders)
  {
  }

  /**
   * `orders` as bot/data_io.py:64-69 computes it: `float(nan)` is NaN and `nan < 0` is false,
   * so a missing cell is accepted.
   */
  function OrdersAsWritten(c: Cell, conv: Conversions): Result<FloatValue, RowError>
  {
    match c
    case Missing => Ok(NaN)
    case _ =>
      match FloatOf(c, conv)
      case None => Err(BadOrders)
      case Some(x) => if x < 0.0 then Err(NegativeOrders) else Ok(Fin(x))
  }

  /** The code as written lets a row with an empty `orders` cell through, with NaN orders. */
  lemma OrdersAsWrittenAcceptsMissing(conv: Conversions)
    ensures OrdersAsWritten(Missing, conv) == Ok(NaN)
    ensures OrdersOf(Missing, conv).Err?
  {
  }

  /** On every cell that is present, the code as written and the corrected check agree. */
  lemma OrdersAsWrittenAgrees(c: Cell, conv: Conversions)
    requires !c.Missing?
    ensures OrdersAsWritten(c, conv).Ok? <==> OrdersOf(c, conv).Ok?
    ensures OrdersOf(c, conv).Ok? ==> OrdersAsWritten(c, conv).value == Fin(OrdersOf(c, conv).value)
    ensures OrdersOf(c, conv).Err? ==> OrdersAsWritten(c, conv).error == OrdersOf(c, conv).error
  {
  }

  /** One row of the sales table (bot/data_io.py:63-70), with the corrected `orders` check. */
  function SalesRowOf(row: Row, conv: Conversions): Result<SalesRow, RowError>
  {
    match OrdersOf(Get(row, "orders"), conv)
    case Err(e) => Err(e)
    case Ok(orders) => Ok(SalesRow(Strip(StrOf(Get(row, "region_code"), conv)), orders))
  }

  // ---------------------------------------------------------------------------------------
  // The row loop and the whole file
  // ---------------------------------------------------------------------------------------

  /**
   * Checks the rows in order and stops at the first bad one, reporting its spreadsheet line:
   * the header is line 1, so row `i` (counting from 0) is line `i + 2`.
   */
  function CheckRows<T>(rows: seq<Row>, check: Row -> Result<T, RowError>): Result<seq<T>, Failure>
  {
    if |rows| == 0 then Ok([])
    else
      var n := |rows| - 1;
      match CheckRows(rows[..n], check)
      case Err(f) => Err(f)
      case Ok(out) =>
        match check(rows[n])
        case Err(e) => Err(RowFailure(n + 2, e))
        case Ok(x) => Ok(out + [x])
  }

  /** Every row passes exactly when the loop succeeds, and then it yields one record per row, in order. */
  lemma {:induction false} CheckRowsOk<T>(rows: seq<Row>, check: Row -> Result<T, RowError>)
    ensures CheckRows(rows, check).Ok? <==> forall i :: 0 <= i < |rows| ==> check(rows[i]).Ok?
    ensures CheckRows(rows, check).Ok? ==>
              && |CheckRows(rows, check).value| == |rows|
              && forall i :: 0 <= i < |rows| ==> CheckRows(rows, check).value[i] == check(rows[i]).value
  {
    if |rows| > 0 {
      var n := |rows| - 1;
      CheckRowsOk(rows[..n], check);
      assert forall i :: 0 <= i < n ==> rows[..n][i] == rows[i];
    }
  }

  /** The failure reported is that of the first bad row. */
  lemma {:induction false} CheckRowsFirstError<T>(rows: seq<Row>, check: Row -> Result<T, RowError>, i: nat)
    requires i < |rows| && check(rows[i]).Err?
    requires forall j :: 0 <= j < i ==> check(rows[j]).Ok?
    ensures CheckRows(rows, check) == Err(RowFailure(i + 2, check(rows[i]).error))
  {
    var n := |rows| - 1;
    if i < n {
      CheckRowsFirstError(rows[..n], check, i);
    } else {
      CheckRowsOk(rows[..n], check);
      assert forall j :: 0 <= j < n ==> rows[..n][j] == rows[j];
    }
  }

  /**
   * The outline shared by `parse_speeds` and `parse_sales`: the extension, then the columns,
   * then the rows, then the empty check.
   */
  function ParseTable<T>(filename: string, table: Table, expected: seq<string>,
                         check: Row -> Result<T, RowError>): Result<seq<T>, Failure>
  {
    if FileKindOf(filename).None? then Err(UnsupportedFile)
    else
      var missing := Absent(expected, table.columns);
      if |missing| > 0 then Err(MissingColumns(missing))
      else
        match CheckRows(table.rows, check)
        case Err(f) => Err(f)
        case Ok(out) => if |out| == 0 then Err(EmptyFile) else Ok(out)
  }

  /**
   * What the outline promises: an unsupported name or a missing column is reported before any
   * row is looked at; an accepted file has at least one row and one record per row.
   */
  lemma ParseTableOutcome<T>(filename: string, table: Table, expected: seq<string>,
                             check: Row -> Result<T, RowError>)
    ensures FileKindOf(filename).None? ==> ParseTable(filename, table, expected, check) == Err(UnsupportedFile)
    ensures FileKindOf(filename).Some? && (exists c :: c in expected && c !in table.columns) ==>
              ParseTable(filename, table, expected, check) == Err(MissingColumns(Absent(expected, table.columns)))
    ensures FileKindOf(filename).Some? && (forall c :: c in expected ==> c in table.columns) && |table.rows| == 0 ==>
              ParseTable(filename, table, expected, check) == Err(EmptyFile)
    ensures ParseTable(filename, table, expected, check).Ok? ==>
              && FileKindOf(filename).Some?
              && (forall c :: c in expected ==> c in table.columns)
              && |table.rows| > 0
              && |ParseTable(filename, table, expected, check).value| == |table.rows|
              && forall i :: 0 <= i < |table.rows| ==>
                   check(table.rows[i]).Ok? && ParseTable(filename, table, expected, check).value[i] == check(table.rows[i]).value
  {
    AbsentExactly(expected, table.columns);
    CheckRowsOk(table.rows, check);
    if exists c :: c in expected && c !in table.columns {
      var c :| c in expected && c !in table.columns;
      assert c in Absent(expected, table.columns);
    }
  }

  function SpeedCheck(conv: Conversions): Row -> Result<SpeedRow, RowError>
  {
    row => SpeedRowOf(row, conv)
  }

  function SalesCheck(conv: Conversions): Row -> Result<SalesRow, RowError>
  {
    row => SalesRowOf(row, conv)
  }

  /** `parse_speeds` (bot/data_io.py:22-52). */
  function SpeedsOf(filename: string, table: Table, conv: Conversions): Result<seq<SpeedRow>, Failure>
  {
    ParseTable(filename, table, SpeedColumns, SpeedCheck(conv))
  }

  /** `parse_sales` (bot/data_io.py:55-74), with the corrected `orders` check. */
  function SalesOf(filename: string, table: Table, conv: Conversions): Result<seq<SalesRow>, Failure>
  {
    ParseTable(filename, table, SalesColumns, SalesCheck(conv))
  }

  /**
   * What an accepted speeds file gives the engine: one record per row, in order; a missing
   * time is unreachable and a present one is the converted positive number; the text fields
   * are stripped.
   */
  lemma SpeedsAccepted(filename: string, table: Table, conv: Conversions, out: seq<SpeedRow>, i: int)
    requires SpeedsOf(filename, table, conv) == Ok(out)
    requires 0 <= i < |table.rows|
    ensures |out| == |table.rows|
    ensures SpeedRowOf(table.rows[i], conv) == Ok(out[i])
    ensures Get(table.rows[i], "time_hours").Missing? ==> out[i].time == Unreachable
    ensures out[i].time.Hours? ==> FloatOf(Get(table.rows[i], "time_hours"), conv) == Some(out[i].time.h)
    ensures NoEdgeSpace(out[i].regionCode) && NoEdgeSpace(out[i].regionName) && NoEdgeSpace(out[i].warehouseName)
  {
    ParseTableOutcome(filename, table, SpeedColumns, SpeedCheck(conv));
    TimeOfCases(Get(table.rows[i], "time_hours"), conv);
  }

  /** A row whose time converts to a number at most 0 makes the whole file fail. */
  lemma SpeedsRejectNonPositive(filename: string, table: Table, conv: Conversions, i: int)
    requires 0 <= i < |table.rows|
    requires !Get(table.rows[i], "time_hours").Missing?
    requires FloatOf(Get(table.rows[i], "time_hours"), conv).Some?
    requires FloatOf(Get(table.rows[i], "time_hours"), conv).value <= 0.0
    ensures SpeedsOf(filename, table, conv).Err?
  {
    ParseTableOutcome(filename, table, SpeedColumns, SpeedCheck(conv));
    assert SpeedCheck(conv)(table.rows[i]).Err?;
  }

  /** What an accepted sales file gives the engine: one record per row, every `orders` at least 0. */
  lemma SalesAccepted(filename: string, table: Table, conv: Conversions, out: seq<SalesRow>, i: int)
    requires SalesOf(filename, table, conv) == Ok(out)
    requires 0 <= i < |table.rows|
    ensures |out| == |table.rows|
    ensures SalesRowOf(table.rows[i], conv) == Ok(out[i])
    ensures out[i].orders >= 0.0
    ensures FloatOf(Get(table.rows[i], "orders"), conv) == Some(out[i].orders)
    ensures NoEdgeSpace(out[i].regionCode)
  {
    ParseTableOutcome(filename, table, SalesColumns, SalesCheck(conv));
    OrdersOfAccepted(Get(table.rows[i], "orders"), conv);
  }

  /** The loop shared by `parse_speeds` and `parse_sales`: stops at the first bad row. */
  method ParseRows<T>(filename: string, table: Table, expected: seq<string>, check: Row -> Result<T, RowError>)
    returns (r: Result<seq<T>, Failure>)
    ensures r == ParseTable(filename, table, expected, check)
  {
    if FileKindOf(filename).None? {
      return Err(UnsupportedFile);
    }
    var missing := Absent(expected, table.columns);
    if |missing| > 0 {
      return Err(MissingColumns(missing));
    }
    var out: seq<T> := [];
    for i := 0 to |table.rows|
      invariant CheckRows(table.rows[..i], check) == Ok(out)
    {
      assert table.rows[..i + 1][..i] == table.rows[..i];
      var row := check(table.rows[i]);
      if row.Err? {
        CheckRowsOk(table.rows[..i], check);
        assert forall j :: 0 <= j < i ==> table.rows[..i][j] == table.rows[j];
        CheckRowsFirstError(table.rows, check, i);
        return Err(RowFailure(i + 2, row.error));
      }
      out := out + [row.value];
    }
    assert table.rows[..|table.rows|] == table.rows;
    if |out| == 0 {
      return Err(EmptyFile);
    }
    return Ok(out);
  }

  method ParseSpeeds(filename: string, table: Table, conv: Conversions) returns (r: Result<seq<SpeedRow>, Failure>)
    ensures r == SpeedsOf(filename, table, conv)
  {
    r := ParseRows(filename, table, SpeedColumns, SpeedCheck(conv));
  }

  method ParseSales(filename: string, table: Table, conv: Conversions) returns (r: Result<seq<SalesRow>, Failure>)
    ensures r == SalesOf(filename, table, conv)
  {
    r := ParseRows(filename, table, SalesColumns, SalesCheck(conv));
  }

  /** A one-row speeds CSV whose time is 0 is rejected at line 2 (tests/test_data_io.py:7-20). */
  lemma ZeroTimeRejected(conv: Conversions)
    ensures SpeedsOf("speeds.csv",
                     Table(set c | c in SpeedColumns,
                           [map["region_code" := Text("msk"), "region_name" := Text("Moscow"),
                                "warehouse_id" := Num(1.0), "warehouse_name" := Text("A"),
                                "time_hours" := Num(0.0)]]),
                     conv)
         == Err(RowFailure(2, NonPositiveTime))
  {
    var row := map["region_code" := Text("msk"), "region_name" := Text("Moscow"),
                   "warehouse_id" := Num(1.0), "warehouse_name" := Text("A"),
                   "time_hours" := Num(0.0)];
    var table := Table(set c | c in SpeedColumns, [row]);
    assert EndsWith(Lower("speeds.csv"), ".csv") by {
      EndsWithLower("speeds.csv", ".csv");
      assert "speeds.csv"[6..] == ".csv";
    }
    AbsentNone(SpeedColumns, table.columns);
    assert Get(row, "time_hours") == Num(0.0);
    assert SpeedRowOf(row, conv) == Err(NonPositiveTime);
    CheckRowsFirstError(table.rows, SpeedCheck(conv), 0);
  }
}
