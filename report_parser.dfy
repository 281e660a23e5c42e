/**
 * The marketplace report reader (wbbot/report_parser.py): cell normalisation, number
 * cleaning, keyword-driven extraction of the report's money figures from every sheet,
 * the derived net profit, the rule-based notes and the reporting period's bounds.
 *
 * Opening the workbook, pandas' sheet reading, the date regex and date parsing are not
 * modelled: the sheets arrive as `Frame`s and the collected dates as ordinals. Python's
 * `float(str)` is the parameter `parseFloat`.
 */
module ReportParser {
  import opened Outcomes
  import opened Records
  import opened Strings

  // ---------------------------------------------------------------------------------------
  // Metrics and their keywords (wbbot/report_parser.py:12-22)
  // ---------------------------------------------------------------------------------------

  datatype Metric =
    | Sales | PayoutGoods | Fines | Storage | Logistics | Deductions | TotalPayment | Tax | CostPrice
    | NetProfit

  /** The keys of `METRIC_KEYWORDS`, in dictionary order; `NetProfit` is derived, not extracted. */
  const MetricOrder: seq<Metric> :=
    [Sales, PayoutGoods, Fines, Storage, Logistics, Deductions, TotalPayment, Tax, CostPrice]

  /** The position of an extracted metric in `MetricOrder`. */
  function Index(m: Metric): nat
  {
    match m
    case Sales => 0
    case PayoutGoods => 1
    case Fines => 2
    case Storage => 3
    case Logistics => 4
    case Deductions => 5
    case TotalPayment => 6
    case Tax => 7
    case CostPrice => 8
    case NetProfit => 9
  }

  /** The metrics `_extract_metrics` looks for: every one but the derived net profit. */
  predicate Extracted(m: Metric)
  {
    m != NetProfit
  }

  lemma IndexOrder(m: Metric)
    ensures m in MetricOrder <==> m != NetProfit
    ensures m != NetProfit ==> Index(m) < |MetricOrder| && MetricOrder[Index(m)] == m
  {
  }

  lemma OrderIndex(k: int)
    requires 0 <= k < |MetricOrder|
    ensures Index(MetricOrder[k]) == k
  {
  }

  /** The value written for "storage": a bare string, not a one-element tuple. */
  const StorageWord: string := "хранени"

  /**
   * The keywords tried for `m`, one substring test each. For `Storage` the test runs over
   * the characters of `StorageWord`, so each single letter is a keyword.
   */
  function Keywords(m: Metric): seq<string>
  {
    match m
    case Sales => ["реализ", "продаж", "выручк"]
    case PayoutGoods => ["к перечислению за товар", "перечислению за товар", "к перечислению"]
    case Fines => ["штраф", "неустой"]
    case Storage => seq(|StorageWord|, i requires 0 <= i < |StorageWord| => [StorageWord[i]])
    case Logistics => ["логист", "доставк", "перевоз"]
    case Deductions => ["удержан", "прочие выплаты", "прочие удержания", "компенсац"]
    case TotalPayment => ["итого к оплате", "к оплате", "итого к перечислению", "итого"]
    case Tax => ["налог"]
    case CostPrice => ["себестоим"]
    case NetProfit => []
  }

  /** Some keyword of `m` occurs in `text`. */
  predicate Matches(m: Metric, text: string)
  {
    exists k :: k in Keywords(m) && Contains(text, k)
  }

  /** Because of the bare string, "storage" matches any text holding one of the letters х, р, а, н, е, и. */
  lemma StorageMatchesAnyLetter(text: string)
    ensures Matches(Storage, text) <==> exists c :: c in StorageWord && c in text
  {
    if Matches(Storage, text) {
      var k :| k in Keywords(Storage) && Contains(text, k);
      var i :| 0 <= i < |StorageWord| && Keywords(Storage)[i] == k;
      ContainsChar(text, StorageWord[i]);
    }
    if exists c :: c in StorageWord && c in text {
      var c :| c in StorageWord && c in text;
      var i :| 0 <= i < |StorageWord| && StorageWord[i] == c;
      ContainsChar(text, c);
      assert Keywords(Storage)[i] == [c];
    }
  }

  /** So a "налог" (tax) row is also a storage row. */
  lemma TaxRowCountsAsStorage()
    ensures Matches(Storage, "налог") && Matches(Tax, "налог")
  {
    StorageMatchesAnyLetter("налог");
    var c := 'а';
    assert "налог"[1] == c && StorageWord[2] == c;
    assert c in StorageWord && c in "налог";
    assert OccursAt("налог", "налог", 0);
    assert Contains("налог", "налог");
    assert Keywords(Tax)[0] == "налог";
  }

  // ---------------------------------------------------------------------------------------
  // _norm (wbbot/report_parser.py:35-38)
  // ---------------------------------------------------------------------------------------

  /** A present value stripped, lower-cased, and with every run of whitespace made one space. */
  function Norm(s: string): string
  {
    CollapseSpaces(Lower(Strip(s)))
  }

  /** `_norm(value)`, with `None` as the missing value. */
  function NormValue(value: Option<string>): (r: string)
    ensures value.None? ==> r == ""
    ensures NoEdgeSpace(r) && IsLowered(r) && Collapsed(r)
  {
    match value
    case None => ""
    case Some(s) => NormShape(s); Norm(s)
  }

  /** A normalised string is trimmed, lower case, and has only single plain spaces inside. */
  lemma NormShape(s: string)
    ensures NoEdgeSpace(Norm(s)) && IsLowered(Norm(s)) && Collapsed(Norm(s))
  {
    NormEdges(s);
    NormLowered(s);
    CollapseSpacesCollapsed(Lower(Strip(s)));
  }

  lemma NormEdges(s: string)
    ensures NoEdgeSpace(Norm(s))
  {
    var u := Strip(s);
    var t := Lower(u);
    if |t| > 0 {
      assert !IsSpace(u[0]) && !IsSpace(u[|u| - 1]);
      assert !IsSpace(t[0]) && !IsSpace(t[|t| - 1]);
      CollapseSpacesCollapsed(t);
      CollapseSpacesLastChar(t);
    }
    assert Norm(s) == CollapseSpaces(t);
  }

  lemma NormLowered(s: string)
    ensures IsLowered(Norm(s))
  {
    var t := Lower(Strip(s));
    var n := CollapseSpaces(t);
    CollapseSpacesChars(t);
    forall k | 0 <= k < |n| ensures LowerChar(n[k]) == n[k] {
      if n[k] != ' ' {
        var j :| 0 <= j < |t| && t[j] == n[k];
        LowerCharIdempotent(Strip(s)[j]);
      }
    }
  }

  /** A lower-case string is left alone by `lower()`. */
  lemma LowerKeeps(s: string)
    requires IsLowered(s)
    ensures Lower(s) == s
  {
  }

  /** A trimmed, lower-case, collapsed string is its own normal form. */
  lemma NormKeeps(n: string)
    requires NoEdgeSpace(n) && IsLowered(n) && Collapsed(n)
    ensures Norm(n) == n
  {
    StripKeeps(n);
    LowerKeeps(n);
    CollapseSpacesKeeps(n);
  }

  /** Normalising twice changes nothing. */
  lemma NormIdempotent(s: string)
    ensures Norm(Norm(s)) == Norm(s)
  {
    NormShape(s);
    NormKeeps(Norm(s));
  }

  // ---------------------------------------------------------------------------------------
  // _to_number (wbbot/report_parser.py:41-54)
  // ---------------------------------------------------------------------------------------

  /** Every `a` in `s` replaced by `b`. */
  function ReplaceChar(s: string, a: char, b: char): (r: string)
    ensures |r| == |s|
    ensures forall k :: 0 <= k < |s| ==> r[k] == (if s[k] == a then b else s[k])
  {
    seq(|s|, k requires 0 <= k < |s| => if s[k] == a then b else s[k])
  }

  /** `s` with every `c` deleted. */
  function RemoveChar(s: string, c: char): (r: string)
    ensures c !in r
    ensures forall x :: x in r ==> x in s
  {
    if |s| == 0 then ""
    else RemoveChar(s[..|s| - 1], c) + (if s[|s| - 1] == c then "" else [s[|s| - 1]])
  }

  /** A string without `c` is left alone. */
  lemma {:induction false} RemoveCharKeeps(s: string, c: char)
    requires c !in s
    ensures RemoveChar(s, c) == s
  {
    if |s| > 0 {
      var init, last := s[..|s| - 1], s[|s| - 1];
      assert s == init + [last];
      assert last != c && c !in init;
      RemoveCharKeeps(init, c);
    }
  }

  /** The text `float` is tried on: stripped, no-break spaces and spaces removed, commas as dots. */
  function CleanNumberText(s: string): string
  {
    ReplaceChar(RemoveChar(ReplaceChar(Strip(s), '\U{A0}', ' '), ' '), ',', '.')
  }

  /** No space, no-break space or comma survives the cleaning. */
  lemma CleanNumberTextChars(s: string)
    ensures ' ' !in CleanNumberText(s) && '\U{A0}' !in CleanNumberText(s) && ',' !in CleanNumberText(s)
  {
    var v := ReplaceChar(Strip(s), '\U{A0}', ' ');
    var u := RemoveChar(v, ' ');
    var w := ReplaceChar(u, ',', '.');
    assert w == CleanNumberText(s);
    forall k | 0 <= k < |w| ensures w[k] != ' ' && w[k] != '\U{A0}' && w[k] != ',' {
      assert u[k] in u;
      assert u[k] in v;
      var i :| 0 <= i < |v| && v[i] == u[k];
    }
  }

  /** Replacing a character that does not occur changes nothing. */
  lemma ReplaceCharKeeps(s: string, a: char, b: char)
    requires a !in s
    ensures ReplaceChar(s, a, b) == s
  {
  }

  /** Text that is already a plain number spelling (no whitespace, no comma) is passed on unchanged. */
  lemma CleanNumberTextKeeps(s: string)
    requires Plain(s)
    ensures CleanNumberText(s) == s
  {
    assert NoEdgeSpace(s);
    StripKeeps(s);
    PlainHasNo(s);
    ReplaceCharKeeps(s, '\U{A0}', ' ');
    RemoveCharKeeps(s, ' ');
    ReplaceCharKeeps(s, ',', '.');
  }

  /** `_to_number`: `None` for a missing cell, empty text or text `float` rejects; it never raises. */
  function ToNumber(c: Cell, parseFloat: string -> Option<real>): Option<real>
  {
    match c
    case Missing => None
    case Num(x) => Some(x)
    case Text(s) =>
      var text := CleanNumberText(s);
      if |text| == 0 then None else parseFloat(text)
  }

  /** The three kinds of cell. */
  lemma ToNumberCases(c: Cell, parseFloat: string -> Option<real>)
    ensures c.Missing? ==> ToNumber(c, parseFloat) == None
    ensures c.Num? ==> ToNumber(c, parseFloat) == Some(c.x)
    ensures c.Text? && CleanNumberText(c.s) == "" ==> ToNumber(c, parseFloat) == None
    ensures c.Text? && CleanNumberText(c.s) != "" ==> ToNumber(c, parseFloat) == parseFloat(CleanNumberText(c.s))
  {
  }

  /** Characters `float` could take as they are: no whitespace and no comma. */
  predicate Plain(s: string)
  {
    forall k :: 0 <= k < |s| ==> !IsSpace(s[k]) && s[k] != ','
  }

  lemma PlainHasNo(s: string)
    requires Plain(s)
    ensures ' ' !in s && '\U{A0}' !in s && ',' !in s
  {
    assert IsSpace(' ') && IsSpace('\U{A0}');
  }

  /** A thousands separator (space or no-break space) between digit groups is dropped: "1 234" becomes "1234". */
  lemma CleanNumberTextGrouping(a: string, g: char, b: string)
    requires Plain(a) && Plain(b) && |a| > 0 && |b| > 0
    requires g == ' ' || g == '\U{A0}'
    ensures CleanNumberText(a + [g] + b) == a + b
  {
    var s := a + [g] + b;
    assert NoEdgeSpace(s);
    StripKeeps(s);
    var spaced := ReplaceChar(s, '\U{A0}', ' ');
    SeparatorAsSpace(a, g, b);
    SeparatorRemoved(a, b);
    PlainHasNo(a);
    PlainHasNo(b);
    assert ',' !in a + b;
    ReplaceCharKeeps(a + b, ',', '.');
  }

  lemma SeparatorAsSpace(a: string, g: char, b: string)
    requires Plain(a) && Plain(b)
    requires g == ' ' || g == '\U{A0}'
    ensures ReplaceChar(a + [g] + b, '\U{A0}', ' ') == a + " " + b
  {
    PlainHasNo(a);
    PlainHasNo(b);
  }

  lemma SeparatorRemoved(a: string, b: string)
    requires Plain(a) && Plain(b)
    ensures RemoveChar(a + " " + b, ' ') == a + b
  {
    PlainHasNo(a);
    PlainHasNo(b);
    RemoveCharKeeps(a, ' ');
    RemoveCharKeeps(b, ' ');
    assert RemoveChar(" ", ' ') == "" by {
      assert " "[..0] == "";
    }
    RemoveCharAppend(a, " ", ' ');
    assert RemoveChar(a + " ", ' ') == a + "" == a;
    RemoveCharAppend(a + " ", b, ' ');
  }

  /** A decimal comma becomes a decimal point: "234,5" becomes "234.5". */
  lemma CleanNumberTextDecimalComma(a: string, b: string)
    requires Plain(a) && Plain(b)
    ensures CleanNumberText(a + "," + b) == a + "." + b
  {
    var s := a + "," + b;
    assert NoEdgeSpace(s);
    StripKeeps(s);
    PlainHasNo(a);
    PlainHasNo(b);
    assert '\U{A0}' !in s && ' ' !in s;
    ReplaceCharKeeps(s, '\U{A0}', ' ');
    RemoveCharKeeps(s, ' ');
    CommaAsPoint(a, b);
  }

  lemma CommaAsPoint(a: string, b: string)
    requires ',' !in a && ',' !in b
    ensures ReplaceChar(a + "," + b, ',', '.') == a + "." + b
  {
  }

  lemma {:induction false} RemoveCharAppend(u: string, v: string, c: char)
    ensures RemoveChar(u + v, c) == RemoveChar(u, c) + RemoveChar(v, c)
  {
    if |v| > 0 {
      assert (u + v)[..|u + v| - 1] == u + v[..|v| - 1];
      RemoveCharAppend(u, v[..|v| - 1], c);
    } else {
      assert u + v == u;
    }
  }

  // ---------------------------------------------------------------------------------------
  // Frames and the candidates of _extract_metrics (wbbot/report_parser.py:79-116)
  // ---------------------------------------------------------------------------------------
  // The sheet of tests/test_report_parser.py:9-21 under the row rule
  // ---------------------------------------------------------------------------------------

  const TestHeader: seq<string> :=
    ["Дата", "Показатель", "Сумма", "Реализовано", "Хранение", "Логистика", "Удержания", "Налог", "Себестоимость"]

  const TestLabel: string := "К перечислению за товар"

  /** The two rows of the sheet; the `None` cells of the data frame are NaN. */
  const TestRows: seq<seq<Cell>> := [
    [Text("01.01.2026"), Text(TestLabel), Num(197853.73), Num(219312.0), Num(1134.30), Num(33424.56),
     Num(25000.0), Num(13158.72), Num(92470.0)],
    [Text("31.01.2026"), Text("Штрафы"), Num(1500.0), Missing, Missing, Missing, Missing, Missing, Missing]]

  const TestSheet: Frame := Frame(TestHeader, TestRows)

  /** What a cell adds to a column sum: its number, or nothing. */
  function Amount(c: Cell, parseFloat: string -> Option<real>): real
  {
    Value(ToNumber(c, parseFloat))
  }

  /** A reading's value, zero for `None`. */
  function Value(x: Option<real>): real
  {
    match x
    case Some(v) => v
    case None => 0.0
  }

  /** The numbers of a sequence of cells are exactly the values its cells convert to. */
  lemma NumbersMembers(cells: seq<Cell>, parseFloat: string -> Option<real>, x: real)
    ensures x in Numbers(cells, parseFloat) <==> exists k :: 0 <= k < |cells| && ToNumber(cells[k], parseFloat) == Some(x)
  {
    var xs := Readings(cells, parseFloat);
    if x in Numbers(cells, parseFloat) {
      PresentFrom(xs, x);
    }
    if exists k :: 0 <= k < |cells| && ToNumber(cells[k], parseFloat) == Some(x) {
      var k :| 0 <= k < |cells| && ToNumber(cells[k], parseFloat) == Some(x);
      PresentHas(xs, k);
    }
  }

  /** A column of two cells sums to the two cells' amounts. */
  lemma PairSum(a: Cell, b: Cell, parseFloat: string -> Option<real>)
    ensures Sum(Numbers([a, b], parseFloat)) == Amount(a, parseFloat) + Amount(b, parseFloat)
  {
    var xs := Readings([a, b], parseFloat);
    PresentPairSum(xs);
    assert xs[0] == ToNumber(a, parseFloat) && xs[1] == ToNumber(b, parseFloat);
  }

  /** Two readings sum to their values, a `None` counting as zero. */
  lemma PresentPairSum(xs: seq<Option<real>>)
    requires |xs| == 2
    ensures Sum(Present(xs)) == Value(xs[0]) + Value(xs[1])
  {
    var first := Present(xs[..1]);
    PresentSingle(xs[..1]);
    if xs[1].Some? {
      var both := first + [xs[1].value];
      assert both[..|both| - 1] == first;
    }
  }

  /** One reading's numbers: its value, if it has one. */
  lemma PresentSingle(xs: seq<Option<real>>)
    requires |xs| == 1
    ensures Present(xs) == if xs[0].Some? then [xs[0].value] else []
    ensures Sum(Present(xs)) == Value(xs[0])
  {
    assert Present(xs[..0]) == [];
    if xs[0].Some? {
      assert [xs[0].value][..0] == [];
    }
  }

  /** One cell's numbers: its number, if it has one. */
  lemma OneCellNumbers(a: Cell, parseFloat: string -> Option<real>)
    ensures Numbers([a], parseFloat) == if ToNumber(a, parseFloat).Some? then [Amount(a, parseFloat)] else []
    ensures Sum(Numbers([a], parseFloat)) == Amount(a, parseFloat)
  {
    var xs := Readings([a], parseFloat);
    PresentSingle(xs);
    assert xs[0] == ToNumber(a, parseFloat);
  }

  /** A cell that is a number in [0, top], or a text that does not read as a number, reads as nothing or a number in [0, top]. */
  lemma CellWithin(c: Cell, parseFloat: string -> Option<real>, top: real)
    requires 0.0 <= top
    requires c.Num? ==> 0.0 <= c.x <= top
    requires c.Text? ==> ToNumber(c, parseFloat).None?
    ensures ToNumber(c, parseFloat).Some? ==> 0.0 <= ToNumber(c, parseFloat).value <= top
    ensures 0.0 <= Amount(c, parseFloat) <= top
  {
  }

  /** When `top` is among non-negative numbers none of which exceeds it, it is their maximum by magnitude. */
  lemma MaxByAbsOfBounded(xs: seq<real>, top: real)
    requires top in xs
    requires forall x :: x in xs ==> 0.0 <= x <= top
    ensures MaxByAbs(xs) == top
  {
  }

  lemma {:induction false} ColumnCandidatesWithin(c: Frame, m: Metric, n: nat, parseFloat: string -> Option<real>, top: real)
    requires n <= |c.header|
    requires forall j :: 0 <= j < n ==> forall x :: x in ColumnContribution(c, j, m, parseFloat) ==> 0.0 <= x <= top
    ensures forall x :: x in ColumnCandidates(c, m, n, parseFloat) ==> 0.0 <= x <= top
  {
    if n > 0 {
      ColumnCandidatesWithin(c, m, n - 1, parseFloat, top);
    }
  }

  lemma RowCandidatesWithin(rows: seq<seq<Cell>>, m: Metric, n: nat, parseFloat: string -> Option<real>, top: real)
    requires n <= |rows|
    requires forall i, x :: 0 <= i < n && x in Numbers(rows[i], parseFloat) ==> 0.0 <= x <= top
    ensures forall x :: x in RowCandidates(rows, m, n, parseFloat) ==> 0.0 <= x <= top
  {
    RowPartsWithin(rows, m, n, parseFloat, top);
    RowPrefixesGrow(rows, m, parseFloat);
    GrowingWithin(RowPrefixes(rows, m, parseFloat), RowParts(rows, m, parseFloat), n, top);
  }

  /** Each of the first `n` rows, its numbers in [0, top], contributes only values in [0, top]. */
  lemma RowPartsWithin(rows: seq<seq<Cell>>, m: Metric, n: nat, parseFloat: string -> Option<real>, top: real)
    requires n <= |rows|
    requires forall i, x :: 0 <= i < n && x in Numbers(rows[i], parseFloat) ==> 0.0 <= x <= top
    ensures forall k, x :: 0 <= k < n && x in RowParts(rows, m, parseFloat)(k) ==> 0.0 <= x <= top
  {
    forall k | 0 <= k < n
      ensures forall x :: x in RowParts(rows, m, parseFloat)(k) ==> 0.0 <= x <= top
    {
      RowContributionWithin(rows[k], m, parseFloat, top);
    }
  }

  /** A row whose numbers lie in [0, top] contributes only values in [0, top]. */
  lemma RowContributionWithin(row: seq<Cell>, m: Metric, parseFloat: string -> Option<real>, top: real)
    requires forall x :: x in Numbers(row, parseFloat) ==> 0.0 <= x <= top
    ensures forall x :: x in RowContribution(row, m, parseFloat) ==> 0.0 <= x <= top
  {
    RowContributionCases(row, m, parseFloat);
  }

  /** A matching row whose numbers lie in [0, top] and include `top` adds exactly `top`. */
  lemma RowTopContribution(row: seq<Cell>, m: Metric, parseFloat: string -> Option<real>, top: real)
    requires Matches(m, RowText(row)) && top in Numbers(row, parseFloat)
    requires forall x :: x in Numbers(row, parseFloat) ==> 0.0 <= x <= top
    ensures RowContribution(row, m, parseFloat) == [top]
  {
    MaxByAbsOfBounded(Numbers(row, parseFloat), top);
    RowContributionCases(row, m, parseFloat);
  }

  /** A sequence built by appending `parts(k)` at step `k` keeps every single-value part it appends. */
  lemma {:induction false} GrowingHas(built: nat -> seq<real>, parts: nat -> seq<real>, i: nat, n: nat, y: real)
    requires forall k :: 0 < k <= n ==> built(k) == built(k - 1) + parts(k - 1)
    requires i < n && parts(i) == [y]
    ensures y in built(n)
  {
    assert built(n) == built(n - 1) + parts(n - 1);
    if i < n - 1 {
      GrowingHas(built, parts, i, n - 1, y);
    }
  }

  /** A sequence built from nothing by appending parts that lie in [0, top] lies in [0, top]. */
  lemma {:induction false} GrowingWithin(built: nat -> seq<real>, parts: nat -> seq<real>, n: nat, top: real)
    requires built(0) == []
    requires forall k :: 0 < k <= n ==> built(k) == built(k - 1) + parts(k - 1)
    requires forall k, x :: 0 <= k < n && x in parts(k) ==> 0.0 <= x <= top
    ensures forall x :: x in built(n) ==> 0.0 <= x <= top
  {
    if n > 0 {
      assert built(n) == built(n - 1) + parts(n - 1);
      GrowingWithin(built, parts, n - 1, top);
    }
  }

  /** The row candidates of each prefix of `rows` (empty past the end). */
  ghost function RowPrefixes(rows: seq<seq<Cell>>, m: Metric, parseFloat: string -> Option<real>): nat -> seq<real>
  {
    (k: nat) => if k <= |rows| then RowCandidates(rows, m, k, parseFloat) else []
  }

  /** What each row adds (nothing past the end). */
  ghost function RowParts(rows: seq<seq<Cell>>, m: Metric, parseFloat: string -> Option<real>): nat -> seq<real>
  {
    (k: nat) => if k < |rows| then RowContribution(rows[k], m, parseFloat) else []
  }

  lemma RowPrefixesGrow(rows: seq<seq<Cell>>, m: Metric, parseFloat: string -> Option<real>)
    ensures forall k :: 0 < k <= |rows| ==>
              RowPrefixes(rows, m, parseFloat)(k) == RowPrefixes(rows, m, parseFloat)(k - 1) + RowParts(rows, m, parseFloat)(k - 1)
  {
    forall k | 0 < k <= |rows|
      ensures RowPrefixes(rows, m, parseFloat)(k) == RowPrefixes(rows, m, parseFloat)(k - 1) + RowParts(rows, m, parseFloat)(k - 1)
    {
      RowCandidatesStep(rows, m, parseFloat, k);
    }
  }

  lemma RowCandidatesStep(rows: seq<seq<Cell>>, m: Metric, parseFloat: string -> Option<real>, n: nat)
    requires 0 < n <= |rows|
    ensures RowCandidates(rows, m, n, parseFloat) == RowCandidates(rows, m, n - 1, parseFloat) + RowContribution(rows[n - 1], m, parseFloat)
  {
  }

  /** What row `i` adds is among the candidates of every longer prefix of rows. */
  lemma RowCandidatesHas(rows: seq<seq<Cell>>, m: Metric, parseFloat: string -> Option<real>, i: nat, n: nat, y: real)
    requires i < n <= |rows| && RowContribution(rows[i], m, parseFloat) == [y]
    ensures y in RowCandidates(rows, m, n, parseFloat)
  {
    RowPrefixesGrow(rows, m, parseFloat);
    GrowingHas(RowPrefixes(rows, m, parseFloat), RowParts(rows, m, parseFloat), i, n, y);
  }

  /** When every column sums to a value in [0, top], so does every column candidate. */
  lemma ColumnSumsWithin(c: Frame, m: Metric, parseFloat: string -> Option<real>, top: real)
    requires forall j :: 0 <= j < |c.header| ==> 0.0 <= Sum(Numbers(Column(c.rows, j), parseFloat)) <= top
    ensures forall x :: x in ColumnCandidates(c, m, |c.header|, parseFloat) ==> 0.0 <= x <= top
  {
    forall j | 0 <= j < |c.header|
      ensures forall x :: x in ColumnContribution(c, j, m, parseFloat) ==> 0.0 <= x <= top
    {
      ColumnContributionCases(c, j, m, parseFloat);
    }
    ColumnCandidatesWithin(c, m, |c.header|, parseFloat, top);
  }

  lemma OneSheetCandidates(f: Frame, m: Metric, parseFloat: string -> Option<real>)
    ensures AllCandidates([f], m, 1, parseFloat) == FrameCandidates(f, m, parseFloat)
  {
    assert AllCandidates([f], m, 0, parseFloat) == [];
  }

  /**
   * On one sheet whose numbers and column sums all lie in [0, top], a metric that some row
   * matches while holding `top` is extracted as `top`.
   */
  lemma RowValueWins(f: Frame, m: Metric, parseFloat: string -> Option<real>, top: real, i: nat)
    requires m != NetProfit
    requires forall j :: 0 <= j < |Clean(f).header| ==> 0.0 <= Sum(Numbers(Column(Clean(f).rows, j), parseFloat)) <= top
    requires forall r, x :: 0 <= r < |Clean(f).rows| && x in Numbers(Clean(f).rows[r], parseFloat) ==> 0.0 <= x <= top
    requires i < |Clean(f).rows| && Matches(m, RowText(Clean(f).rows[i])) && top in Numbers(Clean(f).rows[i], parseFloat)
    ensures m in ExtractedMetrics([f], parseFloat) && ExtractedMetrics([f], parseFloat)[m] == top
  {
    var c := Clean(f);
    ColumnSumsWithin(c, m, parseFloat, top);
    RowCandidatesWithin(c.rows, m, |c.rows|, parseFloat, top);
    RowTopContribution(c.rows[i], m, parseFloat, top);
    RowCandidatesHas(c.rows, m, parseFloat, i, |c.rows|, top);
    OneSheetCandidates(f, m, parseFloat);
    var cands := AllCandidates([f], m, 1, parseFloat);
    assert top in cands;
    ExtractedMetricsMeaning([f], m, parseFloat);
  }

  /** Two rows that each hold some value survive `dropna(how="all")`. */
  lemma DropEmptyRowsKeepsTwo(r0: seq<Cell>, r1: seq<Cell>)
    requires !AllMissing(r0) && !AllMissing(r1)
    ensures DropEmptyRows([r0, r1]) == [r0, r1]
  {
    assert [r0, r1][..1] == [r0];
    assert [r0][..0] == [];
    assert DropEmptyRows([r0]) == [r0];
  }

  lemma TestRowsKept()
    ensures DropEmptyRows(TestRows) == TestRows
  {
    assert TestRows[0][0].Text? && TestRows[1][0].Text?;
    DropEmptyRowsKeepsTwo(TestRows[0], TestRows[1]);
  }

  /** The label cell normalises to the first payout keyword. */
  lemma TestLabelNorm()
    ensures Norm(TestLabel) == Keywords(PayoutGoods)[0]
  {
    var lowered := Keywords(PayoutGoods)[0];
    assert NoEdgeSpace(TestLabel);
    TestLabelLower();
    TestKeywordCollapsed();
    NormOfLowered(TestLabel, lowered);
  }

  /** A string without edge whitespace whose lower-case form is collapsed normalises to that form. */
  lemma NormOfLowered(s: string, lowered: string)
    requires NoEdgeSpace(s) && Lower(s) == lowered && Collapsed(lowered)
    ensures Norm(s) == lowered
  {
    StripKeeps(s);
    CollapseSpacesKeeps(lowered);
  }

  lemma TestKeywordCollapsed()
    ensures Collapsed(Keywords(PayoutGoods)[0])
  {
    var lowered := Keywords(PayoutGoods)[0];
    assert forall k :: 0 <= k < |lowered| ==> lowered[k] == ' ' || 'а' <= lowered[k] <= 'я';
    assert forall k :: 0 <= k < |lowered| - 1 ==> lowered[k] != ' ' || lowered[k + 1] != ' ';
    CyrillicWordsCollapsed(lowered);
  }

  /** Lower-case Cyrillic words separated by single spaces are collapsed. */
  lemma CyrillicWordsCollapsed(s: string)
    requires forall k :: 0 <= k < |s| ==> s[k] == ' ' || 'а' <= s[k] <= 'я'
    requires forall k :: 0 <= k < |s| - 1 ==> s[k] != ' ' || s[k + 1] != ' '
    ensures Collapsed(s)
  {
  }

  lemma TestLabelLower()
    ensures Lower(TestLabel) == Keywords(PayoutGoods)[0]
  {
    var lowered := Keywords(PayoutGoods)[0];
    forall k | 0 <= k < |TestLabel| ensures LowerChar(TestLabel[k]) == lowered[k] {
    }
  }

  /** In a row of two text cells followed by non-text cells, the row text ends with the second cell's normal form. */
  lemma LabelRowText(row: seq<Cell>)
    requires |row| >= 2 && row[0].Text? && row[1].Text?
    requires forall k :: 2 <= k < |row| ==> !row[k].Text?
    ensures Contains(RowText(row), Norm(row[1].s))
  {
    StringCellsSkip(row, 2);
    TwoTextCells(row[..2]);
    var parts := StringCells(row);
    JoinTwo(" ", parts);
    EndsWithContains(parts[0] + " ", parts[1]);
  }

  lemma JoinTwo(sep: string, parts: seq<string>)
    requires |parts| == 2
    ensures Join(sep, parts) == parts[0] + sep + parts[1]
  {
    assert parts[..1] == [parts[0]];
  }

  lemma TwoTextCells(two: seq<Cell>)
    requires |two| == 2 && two[0].Text? && two[1].Text?
    ensures |StringCells(two)| == 2 && StringCells(two)[1] == Norm(two[1].s)
  {
    assert two[..1] == [two[0]];
    assert [two[0]][..0] == [];
    assert StringCells([two[0]]) == [Norm(two[0].s)];
  }

  lemma EndsWithContains(a: string, b: string)
    ensures Contains(a + b, b)
  {
    assert OccursAt(a + b, b, |a|);
  }

  /** Trailing cells that are not text add nothing to the row's text. */
  lemma {:induction false} StringCellsSkip(row: seq<Cell>, n: nat)
    requires n <= |row|
    requires forall k :: n <= k < |row| ==> !row[k].Text?
    ensures StringCells(row) == StringCells(row[..n])
  {
    if |row| > n {
      StringCellsSkip(row[..|row| - 1], n);
      assert row[..|row| - 1][..n] == row[..n];
    } else {
      assert row[..n] == row;
    }
  }

  /** The text cells of the sheet do not read as numbers, as Python's `float` refuses them. */
  predicate TextIsNotNumber(parseFloat: string -> Option<real>)
  {
    forall i, k :: 0 <= i < |TestRows| && 0 <= k < |TestRows[i]| && TestRows[i][k].Text? ==>
      ToNumber(TestRows[i][k], parseFloat).None?
  }

  /** Every number of the sheet lies between 0 and 219312.00. */
  lemma TestCellsWithin(parseFloat: string -> Option<real>)
    requires TextIsNotNumber(parseFloat)
    ensures forall i, k :: 0 <= i < |TestRows| && 0 <= k < |TestRows[i]| && ToNumber(TestRows[i][k], parseFloat).Some? ==>
              0.0 <= ToNumber(TestRows[i][k], parseFloat).value <= 219312.0
  {
    forall i, k | 0 <= i < |TestRows| && 0 <= k < |TestRows[i]|
      ensures ToNumber(TestRows[i][k], parseFloat).Some? ==> 0.0 <= ToNumber(TestRows[i][k], parseFloat).value <= 219312.0
    {
      CellWithin(TestRows[i][k], parseFloat, 219312.0);
    }
  }

  /** The two amounts of every column add up to at most 219312.00. */
  lemma TestColumnAmounts(parseFloat: string -> Option<real>)
    requires TextIsNotNumber(parseFloat)
    ensures forall j :: 0 <= j < 9 ==> 0.0 <= Amount(TestRows[0][j], parseFloat) + Amount(TestRows[1][j], parseFloat) <= 219312.0
  {
    forall j | 0 <= j < 9
      ensures 0.0 <= Amount(TestRows[0][j], parseFloat) + Amount(TestRows[1][j], parseFloat) <= 219312.0
    {
      if j == 2 {
        CellWithin(TestRows[0][j], parseFloat, 197853.73);
        CellWithin(TestRows[1][j], parseFloat, 1500.0);
      } else {
        CellWithin(TestRows[0][j], parseFloat, 219312.0);
        CellWithin(TestRows[1][j], parseFloat, 0.0);
      }
    }
  }

  /** Every column of the sheet sums to a value in [0, 219312.00]. */
  lemma TestColumnSums(parseFloat: string -> Option<real>)
    requires TextIsNotNumber(parseFloat)
    ensures forall j :: 0 <= j < 9 ==> 0.0 <= Sum(Numbers(Column(TestRows, j), parseFloat)) <= 219312.0
  {
    TestColumnAmounts(parseFloat);
    forall j | 0 <= j < 9 ensures 0.0 <= Sum(Numbers(Column(TestRows, j), parseFloat)) <= 219312.0 {
      assert Column(TestRows, j) == [TestRows[0][j], TestRows[1][j]];
      PairSum(TestRows[0][j], TestRows[1][j], parseFloat);
    }
  }

  /** Every number of either row lies in [0, 219312.00], and row 0 holds 219312.00 itself. */
  lemma TestRowNumbers(parseFloat: string -> Option<real>)
    requires TextIsNotNumber(parseFloat)
    ensures forall r, x :: 0 <= r < |TestRows| && x in Numbers(TestRows[r], parseFloat) ==> 0.0 <= x <= 219312.0
    ensures 219312.0 in Numbers(TestRows[0], parseFloat)
  {
    TestCellsWithin(parseFloat);
    forall r, x | 0 <= r < |TestRows| && x in Numbers(TestRows[r], parseFloat) ensures 0.0 <= x <= 219312.0 {
      NumbersMembers(TestRows[r], parseFloat, x);
    }
    assert ToNumber(TestRows[0][3], parseFloat) == Some(219312.0);
    NumbersMembers(TestRows[0], parseFloat, 219312.0);
  }

  lemma TestSheetCleaned()
    ensures Clean(TestSheet).rows == TestRows
    ensures |Clean(TestSheet).header| == 9
  {
    TestRowsKept();
  }

  /**
   * As written, the sheet's payout is 219312.00: row 0 matches "к перечислению за товар" and
   * adds its largest number, which is the sales figure, and no candidate is larger.
   */
  lemma TestSheetPayout(parseFloat: string -> Option<real>)
    requires TextIsNotNumber(parseFloat)
    ensures PayoutGoods in ExtractedMetrics([TestSheet], parseFloat)
    ensures ExtractedMetrics([TestSheet], parseFloat)[PayoutGoods] == 219312.0
  {
    TestSheetCleaned();
    TestColumnSums(parseFloat);
    TestRowNumbers(parseFloat);
    TestRowMatchesPayout();
    RowValueWins(TestSheet, PayoutGoods, parseFloat, 219312.0, 0);
  }

  /** Row 0's text holds the first payout keyword. */
  lemma TestRowMatchesPayout()
    ensures Matches(PayoutGoods, RowText(TestRows[0]))
  {
    assert TestRows[0][1].s == TestLabel;
    LabelRowText(TestRows[0]);
    TestLabelNorm();
    assert Keywords(PayoutGoods)[0] in Keywords(PayoutGoods);
  }

  // ---------------------------------------------------------------------------------------

  /** One sheet: its column headers (as `str`) and its rows of cells. */
  datatype Frame = Frame(header: seq<string>, rows: seq<seq<Cell>>)

  /** The cell in column `j` of `row`, `Missing` beyond the row's end. */
  function CellAt(row: seq<Cell>, j: int): Cell
  {
    if 0 <= j < |row| then row[j] else Missing
  }

  /** Every cell of the row is NaN. */
  predicate AllMissing(row: seq<Cell>)
  {
    forall k :: 0 <= k < |row| ==> row[k].Missing?
  }

  /** The rows left once those whose every cell is NaN are dropped. */
  function DropEmptyRows(rows: seq<seq<Cell>>): (r: seq<seq<Cell>>)
    ensures forall row :: row in r <==> row in rows && !AllMissing(row)
  {
    if |rows| == 0 then []
    else DropEmptyRows(rows[..|rows| - 1]) + (if AllMissing(rows[|rows| - 1]) then [] else [rows[|rows| - 1]])
  }

  /** The sheet with normalised headers and without its all-empty rows. */
  function Clean(f: Frame): (c: Frame)
    ensures |c.header| == |f.header|
    ensures forall j :: 0 <= j < |f.header| ==> c.header[j] == Norm(f.header[j])
  {
    Frame(seq(|f.header|, j requires 0 <= j < |f.header| => Norm(f.header[j])), DropEmptyRows(f.rows))
  }

  /** Column `j` of `rows`. */
  function Column(rows: seq<seq<Cell>>, j: int): (col: seq<Cell>)
    ensures |col| == |rows|
    ensures forall i :: 0 <= i < |rows| ==> col[i] == CellAt(rows[i], j)
  {
    seq(|rows|, i requires 0 <= i < |rows| => CellAt(rows[i], j))
  }

  /** `[_to_number(v) for v in cells]`. */
  function Readings(cells: seq<Cell>, parseFloat: string -> Option<real>): (r: seq<Option<real>>)
    ensures |r| == |cells|
    ensures forall k :: 0 <= k < |cells| ==> r[k] == ToNumber(cells[k], parseFloat)
  {
    seq(|cells|, k requires 0 <= k < |cells| => ToNumber(cells[k], parseFloat))
  }

  /** The values of the readings that are not `None`, in order. */
  function Present(xs: seq<Option<real>>): seq<real>
  {
    if |xs| == 0 then []
    else
      var rest := Present(xs[..|xs| - 1]);
      match xs[|xs| - 1]
      case None => rest
      case Some(x) => rest + [x]
  }

  /** The numbers `_to_number` finds in `cells`, in order, the failures dropped. */
  function Numbers(cells: seq<Cell>, parseFloat: string -> Option<real>): seq<real>
  {
    Present(Readings(cells, parseFloat))
  }

  lemma {:induction false} PresentEmpty(xs: seq<Option<real>>)
    ensures |Present(xs)| == 0 <==> forall k :: 0 <= k < |xs| ==> xs[k].None?
  {
    if |xs| > 0 {
      var n := |xs| - 1;
      PresentEmpty(xs[..n]);
      assert forall k :: 0 <= k < n ==> xs[..n][k] == xs[k];
    }
  }

  lemma {:induction false} PresentFrom(xs: seq<Option<real>>, x: real)
    requires x in Present(xs)
    ensures exists k :: 0 <= k < |xs| && xs[k] == Some(x)
  {
    var n := |xs| - 1;
    if x in Present(xs[..n]) {
      PresentFrom(xs[..n], x);
      var k :| 0 <= k < n && xs[..n][k] == Some(x);
      assert xs[k] == xs[..n][k];
    } else {
      assert xs[n] == Some(x);
    }
  }

  lemma {:induction false} PresentHas(xs: seq<Option<real>>, k: nat)
    requires k < |xs| && xs[k].Some?
    ensures xs[k].value in Present(xs)
  {
    var n := |xs| - 1;
    if k < n {
      assert xs[..n][k] == xs[k];
      PresentHas(xs[..n], k);
    }
  }

  /** No number is found exactly when no cell converts. */
  lemma NumbersEmpty(cells: seq<Cell>, parseFloat: string -> Option<real>)
    ensures |Numbers(cells, parseFloat)| == 0 <==> forall k :: 0 <= k < |cells| ==> ToNumber(cells[k], parseFloat).None?
  {
    PresentEmpty(Readings(cells, parseFloat));
  }

  function Sum(xs: seq<real>): real
  {
    if |xs| == 0 then 0.0 else Sum(xs[..|xs| - 1]) + xs[|xs| - 1]
  }

  function Abs(x: real): real
  {
    if x < 0.0 then -x else x
  }

  /** Python's maximum by absolute value: the first element of largest absolute value. */
  function MaxByAbs(xs: seq<real>): (r: real)
    requires |xs| > 0
    ensures r in xs
    ensures forall x :: x in xs ==> Abs(x) <= Abs(r)
  {
    if |xs| == 1 then xs[0]
    else
      var best := MaxByAbs(xs[..|xs| - 1]);
      assert forall x :: x in xs ==> x in xs[..|xs| - 1] || x == xs[|xs| - 1];
      if Abs(xs[|xs| - 1]) > Abs(best) then xs[|xs| - 1] else best
  }

  /** Ties go to the earliest element: everything before the chosen one is strictly smaller. */
  lemma {:induction false} MaxByAbsFirst(xs: seq<real>)
    requires |xs| > 0
    ensures exists i :: 0 <= i < |xs| && xs[i] == MaxByAbs(xs) && forall j :: 0 <= j < i ==> Abs(xs[j]) < Abs(xs[i])
  {
    if |xs| > 1 {
      var pre := xs[..|xs| - 1];
      MaxByAbsFirst(pre);
      var i :| 0 <= i < |pre| && pre[i] == MaxByAbs(pre) && forall j :: 0 <= j < i ==> Abs(pre[j]) < Abs(pre[i]);
      var n := |xs| - 1;
      if Abs(xs[n]) > Abs(MaxByAbs(pre)) {
        forall j | 0 <= j < n ensures Abs(xs[j]) < Abs(xs[n]) {
          assert xs[j] == pre[j] && pre[j] in pre;
        }
        assert xs[n] == MaxByAbs(xs);
        assert 0 <= n < |xs| && xs[n] == MaxByAbs(xs) && forall j :: 0 <= j < n ==> Abs(xs[j]) < Abs(xs[n]);
      } else {
        assert xs[i] == pre[i] == MaxByAbs(xs);
        assert forall j :: 0 <= j < i ==> xs[j] == pre[j];
        assert 0 <= i < |xs| && xs[i] == MaxByAbs(xs) && forall j :: 0 <= j < i ==> Abs(xs[j]) < Abs(xs[i]);
      }
    } else {
      assert 0 <= 0 < |xs| && xs[0] == MaxByAbs(xs);
    }
  }

  /** What column `j` of a cleaned sheet adds for `m` (wbbot/report_parser.py:88-95). */
  function ColumnContribution(c: Frame, j: int, m: Metric, parseFloat: string -> Option<real>): seq<real>
    requires 0 <= j < |c.header|
  {
    var name := c.header[j];
    if StartsWith(name, "unnamed") || !Matches(m, name) then []
    else
      var numeric := Numbers(Column(c.rows, j), parseFloat);
      if |numeric| == 0 then [] else [Sum(numeric)]
  }

  /** The candidates of the first `n` columns, in column order. */
  function ColumnCandidates(c: Frame, m: Metric, n: nat, parseFloat: string -> Option<real>): seq<real>
    requires n <= |c.header|
  {
    if n == 0 then [] else ColumnCandidates(c, m, n - 1, parseFloat) + ColumnContribution(c, n - 1, m, parseFloat)
  }

  /** The normalised text cells of the row, joined by single spaces. */
  function RowText(row: seq<Cell>): string
  {
    Join(" ", StringCells(row))
  }

  function StringCells(row: seq<Cell>): seq<string>
  {
    if |row| == 0 then []
    else StringCells(row[..|row| - 1]) + (if row[|row| - 1].Text? then [Norm(row[|row| - 1].s)] else [])
  }

  /** What one row adds for `m` (wbbot/report_parser.py:98-108). */
  function RowContribution(row: seq<Cell>, m: Metric, parseFloat: string -> Option<real>): seq<real>
  {
    var nums := Numbers(row, parseFloat);
    if |nums| == 0 || !Matches(m, RowText(row)) then [] else [MaxByAbs(nums)]
  }

  /** The candidates of the first `n` rows, in row order. */
  function RowCandidates(rows: seq<seq<Cell>>, m: Metric, n: nat, parseFloat: string -> Option<real>): seq<real>
    requires n <= |rows|
  {
    if n == 0 then [] else RowCandidates(rows, m, n - 1, parseFloat) + RowContribution(rows[n - 1], m, parseFloat)
  }

  /** One sheet's candidates: its columns first, then its rows. */
  function FrameCandidates(f: Frame, m: Metric, parseFloat: string -> Option<real>): seq<real>
  {
    var c := Clean(f);
    ColumnCandidates(c, m, |c.header|, parseFloat) + RowCandidates(c.rows, m, |c.rows|, parseFloat)
  }

  /** `candidates[m]` after the first `n` sheets. */
  function AllCandidates(frames: seq<Frame>, m: Metric, n: nat, parseFloat: string -> Option<real>): seq<real>
    requires n <= |frames|
  {
    if n == 0 then [] else AllCandidates(frames, m, n - 1, parseFloat) + FrameCandidates(frames[n - 1], m, parseFloat)
  }

  /** Each metric with a nonempty list, at the list's first largest-magnitude entry. */
  function Best(lists: Metric -> seq<real>): map<Metric, real>
  {
    map m | m in MetricOrder && |lists(m)| > 0 :: MaxByAbs(lists(m))
  }

  /** The metrics `_extract_metrics` returns: each metric with a candidate, at its largest-magnitude one. */
  function ExtractedMetrics(frames: seq<Frame>, parseFloat: string -> Option<real>): map<Metric, real>
  {
    Best(m => AllCandidates(frames, m, |frames|, parseFloat))
  }

  // --- what the extraction promises --------------------------------------------------------

  /**
   * A column whose normalised name starts with "unnamed" adds nothing; otherwise a matching
   * column with numbers adds exactly the sum of its numbers.
   */
  lemma ColumnContributionCases(c: Frame, j: int, m: Metric, parseFloat: string -> Option<real>)
    requires 0 <= j < |c.header|
    ensures StartsWith(c.header[j], "unnamed") ==> ColumnContribution(c, j, m, parseFloat) == []
    ensures |ColumnContribution(c, j, m, parseFloat)| <= 1
    ensures |ColumnContribution(c, j, m, parseFloat)| == 1 <==>
              && !StartsWith(c.header[j], "unnamed") && Matches(m, c.header[j])
              && exists i :: 0 <= i < |c.rows| && ToNumber(CellAt(c.rows[i], j), parseFloat).Some?
    ensures |ColumnContribution(c, j, m, parseFloat)| == 1 ==>
              ColumnContribution(c, j, m, parseFloat)[0] == Sum(Numbers(Column(c.rows, j), parseFloat))
  {
    var col := Column(c.rows, j);
    NumbersEmpty(col, parseFloat);
    if exists i :: 0 <= i < |c.rows| && ToNumber(CellAt(c.rows[i], j), parseFloat).Some? {
      var i :| 0 <= i < |c.rows| && ToNumber(CellAt(c.rows[i], j), parseFloat).Some?;
      assert col[i] == CellAt(c.rows[i], j);
    }
  }

  /**
   * A row without numbers, or whose text matches no keyword, adds nothing; a matching row with
   * numbers adds exactly one candidate, its first largest-magnitude number.
   */
  lemma RowContributionCases(row: seq<Cell>, m: Metric, parseFloat: string -> Option<real>)
    ensures (forall k :: 0 <= k < |row| ==> ToNumber(row[k], parseFloat).None?) ==> RowContribution(row, m, parseFloat) == []
    ensures !Matches(m, RowText(row)) ==> RowContribution(row, m, parseFloat) == []
    ensures |RowContribution(row, m, parseFloat)| <= 1
    ensures |RowContribution(row, m, parseFloat)| == 1 <==>
              && Matches(m, RowText(row))
              && exists k :: 0 <= k < |row| && ToNumber(row[k], parseFloat).Some?
    ensures Matches(m, RowText(row)) && |Numbers(row, parseFloat)| > 0 ==>
              RowContribution(row, m, parseFloat) == [MaxByAbs(Numbers(row, parseFloat))]
    ensures |RowContribution(row, m, parseFloat)| == 1 ==>
              && Matches(m, RowText(row))
              && RowContribution(row, m, parseFloat)[0] in Numbers(row, parseFloat)
              && forall x :: x in Numbers(row, parseFloat) ==> Abs(x) <= Abs(RowContribution(row, m, parseFloat)[0])
  {
    NumbersEmpty(row, parseFloat);
  }

  /**
   * A metric is in the result exactly when some sheet gave it a candidate, and then its value
   * is the first candidate of largest absolute value.
   */
  lemma ExtractedMetricsMeaning(frames: seq<Frame>, m: Metric, parseFloat: string -> Option<real>)
    ensures m in ExtractedMetrics(frames, parseFloat) <==>
              m != NetProfit && |AllCandidates(frames, m, |frames|, parseFloat)| > 0
    ensures m in ExtractedMetrics(frames, parseFloat) ==>
              var cands := AllCandidates(frames, m, |frames|, parseFloat);
              && ExtractedMetrics(frames, parseFloat)[m] in cands
              && (forall x :: x in cands ==> Abs(x) <= Abs(ExtractedMetrics(frames, parseFloat)[m]))
              && exists i :: 0 <= i < |cands| && cands[i] == ExtractedMetrics(frames, parseFloat)[m]
                              && forall j :: 0 <= j < i ==> Abs(cands[j]) < Abs(cands[i])
  {
    IndexOrder(m);
    if m in ExtractedMetrics(frames, parseFloat) {
      MaxByAbsFirst(AllCandidates(frames, m, |frames|, parseFloat));
    }
  }

  // --- the loops of _extract_metrics --------------------------------------------------------

  /** `candidates` holds a list for every metric of `METRIC_KEYWORDS`. */
  predicate HasAllMetrics(cands: map<Metric, seq<real>>)
  {
    forall m :: Extracted(m) ==> m in cands
  }

  /** `next` is `cands` with `add(m)` appended to the list of every metric before position `k`. */
  ghost predicate AppendedUpTo(next: map<Metric, seq<real>>, cands: map<Metric, seq<real>>, add: Metric -> seq<real>, k: int)
  {
    && HasAllMetrics(next) && HasAllMetrics(cands)
    && forall m :: Extracted(m) ==> next[m] == cands[m] + (if Index(m) < k then add(m) else [])
  }

  /** The metric at position `k` gets its addition. */
  lemma AppendedStep(next: map<Metric, seq<real>>, cands: map<Metric, seq<real>>, add: Metric -> seq<real>, k: int, extra: seq<real>)
    requires 0 <= k < |MetricOrder| && AppendedUpTo(next, cands, add, k) && extra == add(MetricOrder[k])
    ensures AppendedUpTo(next[MetricOrder[k] := next[MetricOrder[k]] + extra], cands, add, k + 1)
  {
    OrderIndex(k);
    var m := MetricOrder[k];
    var after := next[m := next[m] + extra];
    forall m' | Extracted(m')
      ensures after[m'] == cands[m'] + (if Index(m') < k + 1 then add(m') else [])
    {
      IndexOrder(m');
      if m' == m {
        assert after[m'] == cands[m] + [] + extra;
      }
    }
  }

  /** The metric at position `k` gets nothing. */
  lemma AppendedSkip(next: map<Metric, seq<real>>, cands: map<Metric, seq<real>>, add: Metric -> seq<real>, k: int)
    requires 0 <= k < |MetricOrder| && AppendedUpTo(next, cands, add, k) && add(MetricOrder[k]) == []
    ensures AppendedUpTo(next, cands, add, k + 1)
  {
    OrderIndex(k);
    forall m' | Extracted(m')
      ensures next[m'] == cands[m'] + (if Index(m') < k + 1 then add(m') else [])
    {
      IndexOrder(m');
      if Index(m') == k {
        assert m' == MetricOrder[k];
      }
    }
  }

  /** Every metric has had its addition. */
  lemma AppendedAll(next: map<Metric, seq<real>>, cands: map<Metric, seq<real>>, add: Metric -> seq<real>)
    requires AppendedUpTo(next, cands, add, |MetricOrder|)
    ensures forall m :: Extracted(m) ==> next[m] == cands[m] + add(m)
  {
    forall m | Extracted(m) ensures next[m] == cands[m] + add(m) {
      IndexOrder(m);
    }
  }

  lemma AppendedNone(cands: map<Metric, seq<real>>, add: Metric -> seq<real>)
    requires HasAllMetrics(cands)
    ensures AppendedUpTo(cands, cands, add, 0)
  {
    forall m | Extracted(m) ensures cands[m] == cands[m] + [] {
    }
  }

  /** For a column not named "unnamed…", the metric loop's two tests decide the contribution. */
  lemma ColumnContributionStep(c: Frame, j: int, m: Metric, parseFloat: string -> Option<real>)
    requires 0 <= j < |c.header| && !StartsWith(c.header[j], "unnamed")
    ensures ColumnContribution(c, j, m, parseFloat)
         == if Matches(m, c.header[j]) && |Numbers(Column(c.rows, j), parseFloat)| > 0
            then [Sum(Numbers(Column(c.rows, j), parseFloat))] else []
  {
  }

  /** The inner loop over the metrics for column `j` (wbbot/report_parser.py:88-95). */
  method AddColumnCandidates(cands: map<Metric, seq<real>>, c: Frame, j: int, parseFloat: string -> Option<real>)
    returns (next: map<Metric, seq<real>>)
    requires HasAllMetrics(cands) && 0 <= j < |c.header|
    ensures HasAllMetrics(next)
    ensures forall m :: Extracted(m) ==> next[m] == cands[m] + ColumnContribution(c, j, m, parseFloat)
  {
    ghost var add := (m: Metric) => ColumnContribution(c, j, m, parseFloat);
    next := cands;
    var name := c.header[j];
    if StartsWith(name, "unnamed") {
      forall m | Extracted(m) ensures next[m] == cands[m] + ColumnContribution(c, j, m, parseFloat) {
        assert ColumnContribution(c, j, m, parseFloat) == [];
      }
      return;
    }
    AppendedNone(cands, add);
    for k := 0 to |MetricOrder|
      invariant AppendedUpTo(next, cands, add, k)
    {
      var m := MetricOrder[k];
      ColumnContributionStep(c, j, m, parseFloat);
      var added := false;
      if Matches(m, name) {
        var numeric := Numbers(Column(c.rows, j), parseFloat);
        if |numeric| > 0 {
          AppendedStep(next, cands, add, k, [Sum(numeric)]);
          next := next[m := next[m] + [Sum(numeric)]];
          added := true;
        }
      }
      if !added {
        AppendedSkip(next, cands, add, k);
      }
    }
    AppendedAll(next, cands, add);
  }

  /** The body of the row loop (wbbot/report_parser.py:98-108). */
  method AddRowCandidates(cands: map<Metric, seq<real>>, row: seq<Cell>, parseFloat: string -> Option<real>)
    returns (next: map<Metric, seq<real>>)
    requires HasAllMetrics(cands)
    ensures HasAllMetrics(next)
    ensures forall m :: Extracted(m) ==> next[m] == cands[m] + RowContribution(row, m, parseFloat)
  {
    ghost var add := (m: Metric) => RowContribution(row, m, parseFloat);
    next := cands;
    var rowText := RowText(row);
    var nums := Numbers(row, parseFloat);
    if |nums| == 0 {
      forall m | Extracted(m) ensures next[m] == cands[m] + RowContribution(row, m, parseFloat) {
        assert RowContribution(row, m, parseFloat) == [];
      }
      return;
    }
    AppendedNone(cands, add);
    for k := 0 to |MetricOrder|
      invariant AppendedUpTo(next, cands, add, k)
    {
      var m := MetricOrder[k];
      if Matches(m, rowText) {
        AppendedStep(next, cands, add, k, [MaxByAbs(nums)]);
        next := next[m := next[m] + [MaxByAbs(nums)]];
      } else {
        AppendedSkip(next, cands, add, k);
      }
    }
    AppendedAll(next, cands, add);
  }

  /** The column loop of one cleaned sheet. */
  method AddColumnsCandidates(cands: map<Metric, seq<real>>, c: Frame, parseFloat: string -> Option<real>)
    returns (next: map<Metric, seq<real>>)
    requires HasAllMetrics(cands)
    ensures HasAllMetrics(next)
    ensures forall m :: Extracted(m) ==> next[m] == cands[m] + ColumnCandidates(c, m, |c.header|, parseFloat)
  {
    next := cands;
    for j := 0 to |c.header|
      invariant HasAllMetrics(next)
      invariant forall m :: Extracted(m) ==> next[m] == cands[m] + ColumnCandidates(c, m, j, parseFloat)
    {
      next := AddColumnCandidates(next, c, j, parseFloat);
    }
  }

  /** The row loop of one cleaned sheet. */
  method AddRowsCandidates(cands: map<Metric, seq<real>>, rows: seq<seq<Cell>>, parseFloat: string -> Option<real>)
    returns (next: map<Metric, seq<real>>)
    requires HasAllMetrics(cands)
    ensures HasAllMetrics(next)
    ensures forall m :: Extracted(m) ==> next[m] == cands[m] + RowCandidates(rows, m, |rows|, parseFloat)
  {
    next := cands;
    for i := 0 to |rows|
      invariant HasAllMetrics(next)
      invariant forall m :: Extracted(m) ==> next[m] == cands[m] + RowCandidates(rows, m, i, parseFloat)
    {
      next := AddRowCandidates(next, rows[i], parseFloat);
    }
  }

  /** One sheet: the column loop, then the row loop. */
  method AddFrameCandidates(cands: map<Metric, seq<real>>, f: Frame, parseFloat: string -> Option<real>)
    returns (next: map<Metric, seq<real>>)
    requires HasAllMetrics(cands)
    ensures HasAllMetrics(next)
    ensures forall m :: Extracted(m) ==> next[m] == cands[m] + FrameCandidates(f, m, parseFloat)
  {
    var c := Clean(f);
    var afterColumns := AddColumnsCandidates(cands, c, parseFloat);
    next := AddRowsCandidates(afterColumns, c.rows, parseFloat);
  }

  /** The loop over the sheets (wbbot/report_parser.py:82-108). */
  method CollectCandidates(frames: seq<Frame>, parseFloat: string -> Option<real>) returns (cands: map<Metric, seq<real>>)
    ensures HasAllMetrics(cands)
    ensures forall m :: Extracted(m) ==> cands[m] == AllCandidates(frames, m, |frames|, parseFloat)
  {
    cands := map m | m in MetricOrder :: [];
    forall m | Extracted(m) ensures m in cands && cands[m] == AllCandidates(frames, m, 0, parseFloat) {
      IndexOrder(m);
    }
    for f := 0 to |frames|
      invariant HasAllMetrics(cands)
      invariant forall m :: Extracted(m) ==> cands[m] == AllCandidates(frames, m, f, parseFloat)
    {
      cands := AddFrameCandidates(cands, frames[f], parseFloat);
    }
  }

  /** The final loop (wbbot/report_parser.py:110-116): each metric with candidates, at its best one. */
  method PickBest(cands: map<Metric, seq<real>>, ghost lists: Metric -> seq<real>) returns (result: map<Metric, real>)
    requires forall m :: Extracted(m) ==> m in cands && cands[m] == lists(m)
    ensures result == Best(lists)
  {
    result := map[];
    for k := 0 to |MetricOrder|
      invariant forall m :: m in result <==> Extracted(m) && Index(m) < k && |cands[m]| > 0
      invariant forall m :: m in result ==> result[m] == MaxByAbs(cands[m])
    {
      var m := MetricOrder[k];
      OrderIndex(k);
      if |cands[m]| > 0 {
        result := result[m := MaxByAbs(cands[m])];
      }
    }
    BestFrom(cands, lists, result);
  }

  /** After the last metric, the loop's result is `Best(lists)`. */
  lemma BestFrom(cands: map<Metric, seq<real>>, lists: Metric -> seq<real>, result: map<Metric, real>)
    requires forall m :: Extracted(m) ==> m in cands && cands[m] == lists(m)
    requires forall m :: m in result <==> Extracted(m) && Index(m) < |MetricOrder| && |cands[m]| > 0
    requires forall m :: m in result ==> result[m] == MaxByAbs(cands[m])
    ensures result == Best(lists)
  {
    var best := Best(lists);
    forall m ensures m in result <==> m in best {
      IndexOrder(m);
      assert Extracted(m) ==> Index(m) < |MetricOrder|;
    }
    assert result.Keys == best.Keys;
    forall m | m in result ensures result[m] == best[m] {
      IndexOrder(m);
    }
  }

  /** `_extract_metrics`. */
  method ExtractMetrics(frames: seq<Frame>, parseFloat: string -> Option<real>) returns (result: map<Metric, real>)
    ensures result == ExtractedMetrics(frames, parseFloat)
  {
    var cands := CollectCandidates(frames, parseFloat);
    result := PickBest(cands, m => AllCandidates(frames, m, |frames|, parseFloat));
  }

  // ---------------------------------------------------------------------------------------
  // Net profit (wbbot/report_parser.py:141-157)
  // ---------------------------------------------------------------------------------------

  /** The metric's value, 0 when absent. */
  function Get0(metrics: map<Metric, real>, m: Metric): real
  {
    if m in metrics then metrics[m] else 0.0
  }

  /** The derived net profit: from the total payment when there is one, else from the payout. */
  function DerivedNetProfit(metrics: map<Metric, real>): real
  {
    if TotalPayment in metrics then
      metrics[TotalPayment] - Get0(metrics, Tax) - Get0(metrics, CostPrice)
    else
      Get0(metrics, PayoutGoods) - Get0(metrics, Fines) - Get0(metrics, Storage) - Get0(metrics, Logistics)
        - Get0(metrics, Deductions) - Get0(metrics, Tax) - Get0(metrics, CostPrice)
  }

  /** `metrics` after the net-profit step: an extracted net profit is kept, otherwise it is derived. */
  function WithNetProfit(metrics: map<Metric, real>): (r: map<Metric, real>)
    ensures NetProfit in r
    ensures r.Keys == metrics.Keys + {NetProfit}
    ensures forall m :: m in metrics && m != NetProfit ==> r[m] == metrics[m]
  {
    if NetProfit in metrics then metrics else metrics[NetProfit := DerivedNetProfit(metrics)]
  }

  /**
   * The derived value is the amount paid out minus every cost the report lists: with a total
   * payment only tax and cost price are still to come off; without one, every deduction is.
   */
  lemma NetProfitDeductions(metrics: map<Metric, real>)
    requires NetProfit !in metrics
    ensures TotalPayment in metrics ==>
              WithNetProfit(metrics)[NetProfit] + Get0(metrics, Tax) + Get0(metrics, CostPrice) == metrics[TotalPayment]
    ensures TotalPayment !in metrics ==>
              WithNetProfit(metrics)[NetProfit] + Get0(metrics, Fines) + Get0(metrics, Storage) + Get0(metrics, Logistics)
                + Get0(metrics, Deductions) + Get0(metrics, Tax) + Get0(metrics, CostPrice)
              == Get0(metrics, PayoutGoods)
  {
  }

  /** `_extract_metrics` never yields a net profit, so `parse_wb_report` always derives it. */
  lemma NetProfitAlwaysDerived(frames: seq<Frame>, parseFloat: string -> Option<real>)
    ensures NetProfit !in ExtractedMetrics(frames, parseFloat)
    ensures WithNetProfit(ExtractedMetrics(frames, parseFloat))[NetProfit] == DerivedNetProfit(ExtractedMetrics(frames, parseFloat))
  {
    IndexOrder(NetProfit);
  }

  lemma WithNetProfitIdempotent(metrics: map<Metric, real>)
    ensures WithNetProfit(WithNetProfit(metrics)) == WithNetProfit(metrics)
  {
  }

  // ---------------------------------------------------------------------------------------
  // _build_notes (wbbot/report_parser.py:119-131)
  // ---------------------------------------------------------------------------------------

  datatype Note = HighFines | NegativeProfit | NoDeviations

  /** The fines rule: both figures present and non-zero (Python treats `None` and 0 as false), and a fines-to-sales magnitude ratio above 0.05. */
  predicate FinesHigh(metrics: map<Metric, real>)
  {
    && Sales in metrics && metrics[Sales] != 0.0
    && Fines in metrics && metrics[Fines] != 0.0
    && Abs(metrics[Fines]) / Abs(metrics[Sales]) > 0.05
  }

  /** The fines rule without the division: fines exceed 5% of sales in absolute value. */
  lemma FinesHighMeaning(metrics: map<Metric, real>)
    ensures FinesHigh(metrics) <==>
              && Sales in metrics && Fines in metrics && metrics[Fines] != 0.0
              && 20.0 * Abs(metrics[Fines]) > Abs(metrics[Sales]) > 0.0
  {
    if Sales in metrics && metrics[Sales] != 0.0 && Fines in metrics {
      RatioAbove(Abs(metrics[Fines]), Abs(metrics[Sales]));
    }
  }

  lemma RatioAbove(f: real, s: real)
    requires s > 0.0
    ensures f / s > 0.05 <==> 20.0 * f > s
  {
    var q := f / s;
    assert q * s == f;
    if q > 0.05 {
      assert (q - 0.05) * s > 0.0;
    }
    if 20.0 * f > s {
      assert (20.0 * q - 1.0) * s > 0.0;
    }
  }

  /** The negative-profit rule: a net profit is present and below zero. */
  predicate NegativeNet(metrics: map<Metric, real>)
  {
    NetProfit in metrics && metrics[NetProfit] < 0.0
  }

  /**
   * `_build_notes`: the fines note, then the negative-profit note, each exactly when its rule
   * holds, and the "no deviations" note alone when neither does.
   */
  method BuildNotes(metrics: map<Metric, real>) returns (notes: seq<Note>)
    ensures 1 <= |notes| <= 2
    ensures HighFines in notes <==> FinesHigh(metrics)
    ensures NegativeProfit in notes <==> NegativeNet(metrics)
    ensures NoDeviations in notes <==> notes == [NoDeviations]
    ensures FinesHigh(metrics) && NegativeNet(metrics) ==> notes == [HighFines, NegativeProfit]
    ensures FinesHigh(metrics) && !NegativeNet(metrics) ==> notes == [HighFines]
    ensures !FinesHigh(metrics) && NegativeNet(metrics) ==> notes == [NegativeProfit]
    ensures !FinesHigh(metrics) && !NegativeNet(metrics) ==> notes == [NoDeviations]
  {
    notes := [];
    var sales := if Sales in metrics then Some(metrics[Sales]) else None;
    var fines := if Fines in metrics then Some(metrics[Fines]) else None;
    var net := if NetProfit in metrics then Some(metrics[NetProfit]) else None;
    if sales.Some? && sales.value != 0.0 && fines.Some? && fines.value != 0.0
       && Abs(fines.value) / Abs(sales.value) > 0.05 {
      notes := notes + [HighFines];
    }
    if net.Some? && net.value < 0.0 {
      notes := notes + [NegativeProfit];
    }
    if |notes| == 0 {
      notes := notes + [NoDeviations];
    }
  }

  // ---------------------------------------------------------------------------------------
  // The period (wbbot/report_parser.py:74-76)
  // ---------------------------------------------------------------------------------------

  /** A collected date, as its position on the time line (`datetime` comparison is chronological). */
  type Date = int

  function Earliest(dates: seq<Date>): (d: Date)
    requires |dates| > 0
    ensures d in dates && forall x :: x in dates ==> d <= x
  {
    if |dates| == 1 then dates[0]
    else
      var rest := Earliest(dates[..|dates| - 1]);
      assert forall x :: x in dates ==> x in dates[..|dates| - 1] || x == dates[|dates| - 1];
      if dates[|dates| - 1] < rest then dates[|dates| - 1] else rest
  }

  function Latest(dates: seq<Date>): (d: Date)
    requires |dates| > 0
    ensures d in dates && forall x :: x in dates ==> x <= d
  {
    if |dates| == 1 then dates[0]
    else
      var rest := Latest(dates[..|dates| - 1]);
      assert forall x :: x in dates ==> x in dates[..|dates| - 1] || x == dates[|dates| - 1];
      if dates[|dates| - 1] > rest then dates[|dates| - 1] else rest
  }

  /** No bounds without dates, else the earliest and the latest date. */
  function Period(dates: seq<Date>): (p: (Option<Date>, Option<Date>))
    ensures p.0.None? <==> |dates| == 0
    ensures p.1.None? <==> |dates| == 0
    ensures |dates| > 0 ==>
              && p.0.value in dates && p.1.value in dates
              && p.0.value <= p.1.value
              && forall d :: d in dates ==> p.0.value <= d <= p.1.value
  {
    if |dates| == 0 then (None, None) else (Some(Earliest(dates)), Some(Latest(dates)))
  }

  // ---------------------------------------------------------------------------------------
  // parse_wb_report (wbbot/report_parser.py:134-160)
  // ---------------------------------------------------------------------------------------

  datatype ParsedReport = ParsedReport(
    dateStart: Option<Date>,
    dateEnd: Option<Date>,
    metrics: map<Metric, real>,
    notes: seq<Note>)

  /** The report read from `frames`, given the dates `_extract_period` collected from them. */
  method ParseWbReport(frames: seq<Frame>, dates: seq<Date>, parseFloat: string -> Option<real>)
    returns (report: ParsedReport)
    ensures report.metrics == WithNetProfit(ExtractedMetrics(frames, parseFloat))
    ensures (report.dateStart, report.dateEnd) == Period(dates)
    ensures NetProfit in report.metrics
    ensures 1 <= |report.notes| <= 2
    ensures HighFines in report.notes <==> FinesHigh(report.metrics)
    ensures NegativeProfit in report.notes <==> report.metrics[NetProfit] < 0.0
    ensures NoDeviations in report.notes <==> report.notes == [NoDeviations]
    ensures report.notes == [NoDeviations] <==> !FinesHigh(report.metrics) && report.metrics[NetProfit] >= 0.0
    ensures FinesHigh(report.metrics) && report.metrics[NetProfit] < 0.0 ==> report.notes == [HighFines, NegativeProfit]
    ensures FinesHigh(report.metrics) && report.metrics[NetProfit] >= 0.0 ==> report.notes == [HighFines]
    ensures !FinesHigh(report.metrics) && report.metrics[NetProfit] < 0.0 ==> report.notes == [NegativeProfit]
  {
    var period := Period(dates);
    var metrics := ExtractMetrics(frames, parseFloat);
    if NetProfit !in metrics {
      metrics := metrics[NetProfit := DerivedNetProfit(metrics)];
    }
    var notes := BuildNotes(metrics);
    report := ParsedReport(period.0, period.1, metrics, notes);
  }
}
