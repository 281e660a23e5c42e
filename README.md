# Warehouse coverage engine, upload validation and report reader — a Dafny model

The repository is a seller's bot that recommends which fulfilment warehouse to switch on
next. Three pieces of it are modelled here.

- **The coverage and recommendation engine** (`bot/metrics.py`). `build_views` folds the
  per-(region, warehouse) delivery times into three running minima:
  - the best time per region over all warehouses;
  - the best time over the active warehouses;
  - the best time per warehouse and region.

  It then weighs the regions by sales, or uniformly when there is no usable sales mass. From
  the weights it derives:
  - the "global speed", the weighted sum of `1/t` in which an unreachable region counts 0;
  - the coverage percentage;
  - the weighted average delivery time.

  `recommend_next` simulates switching on each inactive warehouse. For each one it measures
  the marginal gain, lists the regions that strictly improve (heaviest first), and
  stable-sorts the candidates by gain.
- **Upload validation** (`bot/data_io.py`). This covers:
  - the file-extension check;
  - the required columns;
  - the row checks of the speeds and sales tables, which report the first bad row by its
    spreadsheet line number.
- **The marketplace report reader** (`wbbot/report_parser.py`). This covers:
  - cell normalisation and number cleaning;
  - keyword-driven extraction of money figures from columns and rows, where the candidate of
    largest magnitude wins;
  - the derived net profit;
  - the rule-based notes;
  - the period's bounds.

Modelling choices:
- **Infinite time.** A time is `Unreachable` or `Hours(h)` with `h > 0`. An average that may be
  infinite is an `Extended`.
- **Dictionaries.** A Python dict becomes a `map` plus a sequence recording its insertion order,
  because the order decides how ties among recommendations are broken.
- **Parsing as parameters.** Python's `float(str)`, `int(str)` and `str(number)` are passed in
  as functions (`Conversions`, `parseFloat`). A spreadsheet or sheet arrives as a sequence of
  rows of `Cell`s: `Missing`, `Num` or `Text`.
- **Imperative code stays imperative.** The loops of the source are methods, each proved equal
  to a specification function, and the properties are lemmas about those functions:
  - `BuildViews`, `ComputeGlobalSpeed` and `RecommendNext`, with its loops `NewBestLoop` and
    `ChangesLoop`;
  - `ParseRows`;
  - `ExtractMetrics` and its per-sheet, per-column and per-row loops;
  - `BuildNotes`;
  - `ParseWbReport`.

The `"storage"` entry of the keyword table is a bare string where every other entry is a
tuple (`wbbot/report_parser.py:16`). The keyword loop therefore runs over its characters, so
*any single letter* of "хранени" is a keyword. The model reproduces this, and
`ReportParser.StorageMatchesAnyLetter` states it. In particular, every "налог" (tax) row also
counts as storage (`ReportParser.TaxRowCountsAsStorage`), so a derived net profit can subtract
the tax twice.

## Model

| member | source | states |
|---|---|---|
| Metrics.FirstSeen | bot/metrics.py:74 | the first-appearance order of a key sequence has no duplicates and exactly the keys seen |
| Metrics.Weights | bot/metrics.py:30-36 | the weights are keyed by exactly the observed regions |
| Metrics.WeightsFromSales | bot/metrics.py:31-34 | with a positive sales total and a positive total over the observed regions, each weight is that region's sales (0 if none) over the regional total, and the weights sum to exactly 1 |
| Metrics.WeightsUniform | bot/metrics.py:35-36 | otherwise every region weighs 1/n, no region set gives no weights (no division), and the weights sum to 1 |
| Metrics.WeightsNonNegative | bot/metrics.py:30-36 | non-negative sales give non-negative weights |
| Metrics.SpeedAntitone | bot/metrics.py:42-43 | a region's speed is 0 when unreachable, else 1/t, and a faster-or-equal time never has a smaller speed |
| Metrics.GlobalSpeedIsSum | bot/metrics.py:39-45 | the accumulated global speed is the sum over the weighted regions of weight × speed |
| Metrics.ComputeGlobalSpeed | bot/metrics.py:39-45 | the accumulating loop computes exactly the global speed |
| Metrics.GlobalSpeedNothingReached | bot/metrics.py:41-44 | with no region reached (every time `inf`) the global speed is 0 |
| Metrics.GlobalSpeedNonNegative | bot/metrics.py:39-45 | with non-negative weights the global speed is at least 0 |
| Metrics.SpeedTermMonotone | bot/metrics.py:43-44 | one weighted term never grows when its time gets worse |
| Metrics.SpeedTermsMonotone | bot/metrics.py:41-44 | region by region, worse times give terms no larger |
| Metrics.GlobalSpeedMonotone | bot/metrics.py:78-79 | times no worse in every region give a global speed no smaller (so the current speed never exceeds the optimum) |
| Metrics.GlobalSpeedOrderIndependent | bot/metrics.py:41 | the global speed does not depend on the order in which the weighted regions are visited |
| Metrics.CoverageBounded | bot/metrics.py:80 | coverage lies in [0, 100] when the current speed is between 0 and the optimum, and is 0 when the optimum is 0 |
| Metrics.PoisonedExactly | bot/metrics.py:49-50 | the average time is infinite exactly when some region of positive weight is unreachable |
| Metrics.WeightedTimeSumIsSum | bot/metrics.py:51 | the finite average is the sum of weight × hours over the weighted regions |
| Metrics.PoisonedMonotone | bot/metrics.py:49-50 | if better times already make the average infinite, worse ones do too |
| Metrics.TimeTermMonotone | bot/metrics.py:51 | one weighted time term never shrinks when its time gets worse |
| Metrics.TimeTermsMonotone | bot/metrics.py:49-51 | when no region of positive weight is unreachable under the worse times, every region's weighted time term is no larger under the better times |
| Metrics.WeightedTimeSumMonotone | bot/metrics.py:51 | region by region worse times give a finite weighted sum no smaller |
| Metrics.WeightedAvgTimeMonotone | bot/metrics.py:48-51 | if the worse times have a finite average, so do the better ones, and it is no larger |
| Metrics.WeightedAvgTimeNonNegative | bot/metrics.py:48-51 | a finite average of non-negative weights is at least 0 |
| Metrics.WeightedAvgTimeAsWrittenAgrees | bot/metrics.py:48-51 | the IEEE reading of the code and the corrected average agree whenever no unreachable region has weight 0 |
| Metrics.FloatSumFinite | bot/metrics.py:51 | a floating sum of finite terms is the exact sum of their values |
| Metrics.FloatWeightedSumReachable | bot/metrics.py:51 | with every region reachable, the floating sum is the exact weighted sum |
| Metrics.WeightedAvgTimeNaNWitness | bot/metrics.py:49-51 | one region of weight 0 that no active warehouse reaches makes the code's average NaN, while the intended average is 5 hours |
| Metrics.BestByRegionIsMinimum | bot/metrics.py:61-68 | a region has a best time exactly when some row names it; that time is the time of one of those rows and no row's time is better |
| Metrics.BestByRegionSubset | bot/metrics.py:67-70 | the best over a subset of the rows (the active ones) is never better than the best over all rows |
| Metrics.ActiveRowsMembers | bot/metrics.py:69 | the rows used for the active minimum are exactly the rows of active warehouses |
| Metrics.RowsOfMembers | bot/metrics.py:71-72 | the rows used for one warehouse's minima are exactly its rows |
| Metrics.RowsOfAbsent | bot/metrics.py:71-72 | a warehouse with no rows has no rows of its own |
| Metrics.BestByWarehouseIsPerWarehouseMinimum | bot/metrics.py:71-72 | the warehouses with minima are exactly those with rows, each with the region minima of its own rows |
| Metrics.RegionNamesKeys | bot/metrics.py:62-63 | the region names are keyed by exactly the region codes seen |
| Metrics.WarehouseNamesKeys | bot/metrics.py:64-65 | the warehouse names are keyed by exactly the warehouse ids seen |
| Metrics.BestByRegionKeys | bot/metrics.py:67-68 | the overall best times are keyed by exactly the regions seen |
| Metrics.SalesMapNonNegative | bot/metrics.py:75 | validated sales give a non-negative sales dict |
| Metrics.ViewOfWellFormed | bot/metrics.py:54-93 | every built view is well-formed: keys agree, the best-over-all is never worse than the best-over-active or any warehouse's best, and the scalars are the functions of the minima and weights; non-negative sales give non-negative weights |
| Metrics.ViewCoverageBounded | bot/metrics.py:78-80 | in a well-formed view with non-negative weights, 0 ≤ current ≤ optimum and coverage is in [0, 100], and 0 when the optimum is 0 |
| Metrics.BuildViewsStep | bot/metrics.py:61-72 | one more row updates the names, the key orders and the three minima exactly as one pass of the loop does |
| Metrics.BuildViews | bot/metrics.py:54-93 | the loop returns the specified view, which is well-formed, and with non-negative sales has 0 ≤ current ≤ optimum and coverage in [0, 100] |
| Metrics.Percent | bot/metrics.py:107 | the percentage is absent exactly when the current speed is 0, and otherwise times the current speed gives 100 × the gain |
| Metrics.PercentNonNegative | bot/metrics.py:106-107 | a non-negative gain over a positive speed gives a non-negative percentage |
| Metrics.Delta | bot/metrics.py:128 | the change in average time is infinite exactly when either average is, and otherwise old + delta = new |
| Metrics.Candidates | bot/metrics.py:98-100 | the candidates are exactly the warehouses with rows that are not active |
| Metrics.CandidatesDistinct | bot/metrics.py:98-100 | no warehouse is a candidate twice |
| Metrics.CandidatesStep | bot/metrics.py:98-100 | one more warehouse in the loop adds it as a candidate exactly when it is inactive |
| Metrics.EvaluateAll | bot/metrics.py:98-131 | one recommendation per candidate, in candidate order, each the evaluation of that warehouse |
| Metrics.EvaluateAllStep | bot/metrics.py:118-131 | evaluating one more candidate appends its recommendation |
| Metrics.Slice | bot/metrics.py:133 | the slice is a prefix of the list whose length follows Python's `[:n]`, including negative n |
| Metrics.NewBestLookup | bot/metrics.py:101-103 | the simulated best times cover exactly the regions, each the better of the active best and the candidate's own |
| Metrics.NewBestBetween | bot/metrics.py:101-103 | a simulated best time is never worse than the active best and never better than the overall best |
| Metrics.CoverageMonotone | bot/metrics.py:124 | a larger speed gives a coverage no smaller |
| Metrics.OpeningBetween | bot/metrics.py:105-109 | switching a warehouse on gives a global speed between the current and the optimum, and a finite current average stays finite and does not grow |
| Metrics.EvaluateGain | bot/metrics.py:105-128 | a recommendation names its warehouse, has a non-negative gain, a percentage absent exactly when the current speed is 0 and otherwise non-negative, a coverage between the current one and 100, and a finite average-time change that is never positive |
| Metrics.ChangesExact | bot/metrics.py:111-116 | the listed region changes are exactly the regions whose simulated time is strictly better, each with its name, weight, old and new time |
| Metrics.SortedChangesExact | bot/metrics.py:111-116 | the sorted changes hold the same regions, heaviest first, regions of equal weight in dict order |
| Metrics.RegionChangesExact | bot/metrics.py:111-129 | the same facts about a recommendation's region changes |
| Metrics.SliceOfSorted | bot/metrics.py:132-133 | a prefix of a sorted list is sorted and holds only listed elements |
| Metrics.EvaluateId | bot/metrics.py:120 | a recommendation carries the id of the warehouse it evaluates |
| Metrics.EvaluateAllMember | bot/metrics.py:118-131 | every evaluated recommendation is the evaluation of one of the candidates |
| Metrics.RecommendationsSorted | bot/metrics.py:132-133 | the result is sorted by gain, highest first, its length is min(top_n, #candidates) for top_n ≥ 0, and equal gains keep candidate order |
| Metrics.RecommendationsAreCandidates | bot/metrics.py:98-133 | every recommendation is the evaluation of an inactive warehouse with rows |
| Metrics.RecommendationsTop | bot/metrics.py:132-133 | a candidate left out of the result gains no more than any recommendation kept |
| Metrics.OnlyCandidate | bot/metrics.py:96-133 | with a single candidate, `top_n=1` returns exactly its recommendation |
| Metrics.TopOfTwo | bot/metrics.py:132-133 | with two candidates of which the second gains strictly more, `top_n=1` returns exactly the second's recommendation |
| Metrics.TestScenarioNothingActive | tests/test_metrics.py:4-18 | the test's rows and sales with no warehouse active (the source's outcome, see Left out): one recommendation, for warehouse 2, with gain 0.125 > 0 |
| Metrics.TestScenarioFirstActive | tests/test_metrics.py:4-18 | the test's rows and sales with warehouse 1 active: one recommendation, for warehouse 2, with gain 0.05 > 0 |
| Metrics.NewBestLoop | bot/metrics.py:101-103 | the loop fills the simulated best times as specified |
| Metrics.ChangesLoop | bot/metrics.py:111-116 | the loop collects exactly the specified changes in region order |
| Metrics.EvaluateCandidate | bot/metrics.py:101-131 | the loop body builds exactly the specified recommendation |
| Metrics.RecommendNext | bot/metrics.py:96-133 | the method returns the specified ranking, sorted by gain, holding only inactive warehouses with rows |
| StableSort.InsertDesc | bot/metrics.py:132 | inserting keeps every element once more: the result is the input plus the new element, as a multiset |
| StableSort.InsertDescSorted | bot/metrics.py:132 | inserting into a descending list keeps it descending |
| StableSort.InsertDescWithKey | bot/metrics.py:132 | the new element goes behind every earlier element of equal key |
| StableSort.SortDesc | bot/metrics.py:129-132 | the sort is a permutation of its input |
| StableSort.SortDescMembers | bot/metrics.py:129-132 | the sort keeps exactly the elements it was given |
| StableSort.SortDescSorted | bot/metrics.py:129-132 | the sort's result is descending by key |
| StableSort.SortDescStable | bot/metrics.py:129-132 | elements of equal key keep their input order |
| StableSort.SortDescPrefixDominates | bot/metrics.py:132-133 | an element outside the first k places ranks no higher than any element inside them |
| Sums.SumOverPermutation | bot/metrics.py:41 | a sum over a permutation of the keys is the same sum |
| Sums.SameSetPermutation | bot/metrics.py:74 | two duplicate-free orders of one set are permutations of each other |
| Strings.Strip | bot/data_io.py:42 | the stripped text has no whitespace at either end and is the input less whitespace at the ends |
| Strings.StripIdempotent | bot/data_io.py:42 | stripping twice changes nothing |
| Strings.Lower | wbbot/report_parser.py:38 | lower-casing keeps the length and lowers every character |
| Strings.CollapseSpacesCollapsed | wbbot/report_parser.py:38 | after collapsing, every whitespace is one plain space and no two touch |
| Strings.CollapseSpacesKeeps | wbbot/report_parser.py:38 | collapsing leaves already collapsed text alone |
| Strings.CollapseSpacesLastChar | wbbot/report_parser.py:38 | collapsing whitespace runs keeps a final non-space character as the last character of the result |
| Strings.ContainsChar | wbbot/report_parser.py:92 | a one-letter keyword is found exactly when the letter occurs |
| DataIo.EndsWithLower | bot/data_io.py:13-17 | the extension test on the lower-cased name is the case-insensitive suffix test |
| DataIo.FileKindAccepts | bot/data_io.py:12-19 | a file is accepted exactly when its name ends, in any case, in .csv, .xlsx or .xls, and is read as CSV exactly for .csv |
| DataIo.FileKindCaseInsensitive | bot/data_io.py:13 | the case of the file name never matters |
| DataIo.Absent | bot/data_io.py:25 | every column reported missing is an expected column the table lacks, and they are listed in the expected order (a subsequence of the expected list) |
| DataIo.AbsentExactly | bot/data_io.py:25-27 | the reported columns are exactly the expected ones the table lacks |
| DataIo.AbsentNone | bot/data_io.py:25-26 | a table with every expected column reports nothing missing |
| DataIo.Truncate | bot/data_io.py:44 | `int()` of a number truncates toward zero |
| DataIo.TimeOfCases | bot/data_io.py:31-39 | an empty time is unreachable; a number is accepted exactly when it is positive, as that many hours; text that is not a number is rejected |
| DataIo.OrdersOfAccepted | bot/data_io.py:63-69 | orders are accepted exactly when numeric and at least 0, with that value; an empty cell is rejected |
| DataIo.OrdersAsWrittenAcceptsMissing | bot/data_io.py:64-69 | the code as written accepts an empty orders cell, as NaN |
| DataIo.OrdersAsWrittenAgrees | bot/data_io.py:64-69 | on every non-empty cell the code as written and the corrected check agree |
| DataIo.CheckRowsOk | bot/data_io.py:29-48 | the rows pass exactly when every row passes, giving one record per row in order |
| DataIo.CheckRowsFirstError | bot/data_io.py:30-39 | the first failing row is reported, numbered as its spreadsheet line (index + 2) |
| DataIo.ParseTableOutcome | bot/data_io.py:22-52 | an unsupported file, then missing columns (named), then an empty table are rejected in that order; success means one record per row |
| DataIo.SpeedsAccepted | bot/data_io.py:29-48 | each accepted speed record comes from its row: an empty time is unreachable, any other time is the row's positive number, and the text fields are stripped |
| DataIo.SpeedsRejectNonPositive | bot/data_io.py:38-39 | a row with a time of 0 or less makes the whole file fail |
| DataIo.SalesAccepted | bot/data_io.py:62-70 | each accepted sales record has the row's orders, at least 0, and a stripped region code, with the corrected `orders` check (see Findings) |
| DataIo.ParseRows | bot/data_io.py:29-51 | the row loop, stopping at the first failure, computes the specified outcome |
| DataIo.ParseSpeeds | bot/data_io.py:22-52 | `parse_speeds` computes the specified outcome |
| DataIo.ParseSales | bot/data_io.py:55-74 | `parse_sales` computes the specified outcome, with the corrected `orders` check (see Findings) |
| DataIo.ZeroTimeRejected | bot/data_io.py:38-39 | a speeds file whose one row has time 0 is rejected at line 2 for a non-positive time |
| ReportParser.StorageMatchesAnyLetter | wbbot/report_parser.py:16 | text matches "storage" exactly when it holds any one letter of "хранени" |
| ReportParser.TaxRowCountsAsStorage | wbbot/report_parser.py:16-21 | the text "налог" matches both storage and tax |
| ReportParser.NormValue | wbbot/report_parser.py:35-38 | a missing value normalises to "", and every result is trimmed, lower case and collapsed |
| ReportParser.NormShape | wbbot/report_parser.py:38 | a normalised string is trimmed, lower case and has single plain spaces only |
| ReportParser.NormEdges | wbbot/report_parser.py:38 | a normalised string has no whitespace at its ends |
| ReportParser.NormLowered | wbbot/report_parser.py:38 | a normalised string is lower case |
| ReportParser.NormKeeps | wbbot/report_parser.py:38 | a trimmed, lower-case, collapsed string is its own normal form |
| ReportParser.NormIdempotent | wbbot/report_parser.py:35-38 | normalising twice changes nothing |
| ReportParser.ReplaceChar | wbbot/report_parser.py:47-48 | replacing one character keeps the length and changes exactly its occurrences |
| ReportParser.RemoveChar | wbbot/report_parser.py:47 | removing a character leaves none of it and adds nothing |
| ReportParser.RemoveCharKeeps | wbbot/report_parser.py:47 | removing an absent character changes nothing |
| ReportParser.CleanNumberTextChars | wbbot/report_parser.py:47-48 | the cleaned text holds no space, no no-break space and no comma |
| ReportParser.CleanNumberTextKeeps | wbbot/report_parser.py:47-48 | a plain number spelling reaches `float` unchanged |
| ReportParser.CleanNumberTextGrouping | wbbot/report_parser.py:47 | a space or no-break space between digit groups is dropped |
| ReportParser.SeparatorAsSpace | wbbot/report_parser.py:47 | a no-break separator becomes a plain space |
| ReportParser.SeparatorRemoved | wbbot/report_parser.py:47 | a space between two plain groups is removed |
| ReportParser.CleanNumberTextDecimalComma | wbbot/report_parser.py:48 | a decimal comma becomes a decimal point |
| ReportParser.CommaAsPoint | wbbot/report_parser.py:48 | the comma between two comma-free parts becomes a point |
| ReportParser.ToNumberCases | wbbot/report_parser.py:41-54 | an empty cell gives none, a number itself, empty cleaned text none, and other text whatever `float` makes of the cleaned text; there is no error case |
| ReportParser.DropEmptyRows | wbbot/report_parser.py:86 | the kept rows are exactly those with at least one non-empty cell |
| ReportParser.Clean | wbbot/report_parser.py:84-86 | every header is replaced by its normal form |
| ReportParser.Column | wbbot/report_parser.py:93 | a column has one cell per row, empty past a short row |
| ReportParser.NumbersEmpty | wbbot/report_parser.py:93-94 | no number is found exactly when no cell converts |
| ReportParser.MaxByAbs | wbbot/report_parser.py:108 | the pick is one of the values and no value has a larger magnitude |
| ReportParser.MaxByAbsFirst | wbbot/report_parser.py:116 | ties go to the earliest value: every value before the pick has a strictly smaller magnitude |
| ReportParser.ColumnContributionCases | wbbot/report_parser.py:88-95 | an "unnamed…" column gives nothing; a column gives one candidate exactly when its name matches and some cell converts, and that candidate is the sum of its numbers |
| ReportParser.RowContributionCases | wbbot/report_parser.py:98-108 | a row without numbers, or whose text matches no keyword, gives nothing; a row gives one candidate exactly when its text matches and some cell converts, and then that candidate is `max(nums, key=abs)` of its numbers |
| ReportParser.NumbersMembers | wbbot/report_parser.py:101-102 | a value is among a row's numbers exactly when some cell converts to it |
| ReportParser.PairSum | wbbot/report_parser.py:93-95 | a column of two cells sums to their numbers, a cell that does not convert counting 0 |
| ReportParser.MaxByAbsOfBounded | wbbot/report_parser.py:108 | among values in [0, top] that include top, the pick by magnitude is top |
| ReportParser.RowTopContribution | wbbot/report_parser.py:98-108 | a matching row whose numbers lie in [0, top] and include top adds exactly top |
| ReportParser.RowCandidatesHas | wbbot/report_parser.py:98-108 | what one row adds is among the candidates of every longer run of rows |
| ReportParser.RowContributionWithin | wbbot/report_parser.py:101-108 | a row whose numbers lie in [0, top] contributes only values in [0, top] |
| ReportParser.RowCandidatesWithin | wbbot/report_parser.py:98-108 | when every row's numbers lie in [0, top], so does every row candidate |
| ReportParser.ColumnSumsWithin | wbbot/report_parser.py:88-95 | when every column sums to a value in [0, top], so does every column candidate |
| ReportParser.RowValueWins | wbbot/report_parser.py:79-116 | on one sheet whose column sums and row numbers lie in [0, top], a matching row holding top makes top the metric's value |
| ReportParser.LabelRowText | wbbot/report_parser.py:99-100 | a row whose only text cells are its first two has the second's normal form in its text |
| ReportParser.TestSheetCleaned | tests/test_report_parser.py:9-21 | the test's sheet keeps both rows and its nine columns when cleaned |
| ReportParser.TestRowMatchesPayout | tests/test_report_parser.py:11-12 | the text of the test's first row matches the payout keywords |
| ReportParser.TestSheetPayout | tests/test_report_parser.py:9-32 | on the test's sheet, the code as written reports payout 219312.00, not the 197853.73 the test expects (see Findings) |
| ReportParser.ExtractedMetricsMeaning | wbbot/report_parser.py:110-116 | a metric is reported exactly when it has a candidate, at the first candidate of largest magnitude; net profit is never extracted |
| ReportParser.ColumnContributionStep | wbbot/report_parser.py:89-95 | for a named column, the keyword test and the non-empty test decide its contribution |
| ReportParser.AddColumnCandidates | wbbot/report_parser.py:88-95 | the metric loop for one column appends exactly that column's contribution to each metric |
| ReportParser.AddRowCandidates | wbbot/report_parser.py:98-108 | the metric loop for one row appends exactly that row's contribution to each metric |
| ReportParser.AddColumnsCandidates | wbbot/report_parser.py:88-95 | the column loop appends the columns' candidates in column order |
| ReportParser.AddRowsCandidates | wbbot/report_parser.py:98-108 | the row loop appends the rows' candidates in row order |
| ReportParser.AddFrameCandidates | wbbot/report_parser.py:82-108 | one sheet appends its column candidates, then its row candidates |
| ReportParser.CollectCandidates | wbbot/report_parser.py:80-108 | the sheet loop gathers every metric's candidates over all sheets in order |
| ReportParser.PickBest | wbbot/report_parser.py:110-116 | the final loop keeps each metric with candidates at its best candidate |
| ReportParser.BestFrom | wbbot/report_parser.py:110-116 | after the last metric, the loop's result is the specified map |
| ReportParser.ExtractMetrics | wbbot/report_parser.py:79-116 | `_extract_metrics` computes the specified metrics |
| ReportParser.WithNetProfit | wbbot/report_parser.py:141-157 | net profit is always present afterwards, and every other metric is unchanged |
| ReportParser.NetProfitDeductions | wbbot/report_parser.py:141-157 | the derived profit plus tax and cost price is the total payment when there is one; otherwise the profit plus every deduction is the payout, missing terms counting 0 |
| ReportParser.NetProfitAlwaysDerived | wbbot/report_parser.py:141 | extraction never yields a net profit, so it is always derived |
| ReportParser.WithNetProfitIdempotent | wbbot/report_parser.py:141 | deriving twice changes nothing |
| ReportParser.FinesHighMeaning | wbbot/report_parser.py:125 | the fines note applies exactly when both figures are present and non-zero and the fines exceed 5% of sales in magnitude |
| ReportParser.RatioAbove | wbbot/report_parser.py:125 | over a positive divisor, a ratio above 0.05 means 20 times the dividend exceeds the divisor |
| ReportParser.BuildNotes | wbbot/report_parser.py:119-131 | one or two notes: the fines note and the negative-profit note appear exactly when their rules hold, in that order, and "no deviations" is the only note exactly when neither holds; each of the four combinations gives its exact list |
| ReportParser.Earliest | wbbot/report_parser.py:76 | the earliest date is one of the dates and precedes all of them |
| ReportParser.Latest | wbbot/report_parser.py:76 | the latest date is one of the dates and follows all of them |
| ReportParser.Period | wbbot/report_parser.py:74-76 | no dates give no bounds; otherwise both bounds are collected dates, start ≤ end, and every date lies between them |
| ReportParser.ParseWbReport | wbbot/report_parser.py:134-160 | the report has the specified metrics with a net profit added and the period's bounds; its one or two notes are the fines note exactly when the fines rule holds on the reported metrics, the negative-profit note exactly when the reported net profit is below 0, and "no deviations" alone exactly when neither holds |

## Left out

- Reading files is not modelled: the uploaded bytes, `pd.read_csv`, `pd.read_excel`,
  `pd.ExcelFile`, `iterrows` and `dropna`. A table is given as column names plus rows of
  cells, and a workbook as a sequence of sheets.
- The bot, its database and its message formatting (`bot/handlers.py`, `bot/db.py`,
  `bot/main.py`, `wbbot/bot.py`) are not part of this model.
- Python's `float(str)`, `int(str)` and `str(number)` are parameters, not definitions. As a
  result, text such as "nan" or "inf" that `float` accepts is not modelled.
- Floating point is not modelled: arithmetic is on exact reals. `float("inf")` is the
  `Unreachable` time or the `Infinite` average. NaN appears only in the as-written members of
  the findings below.
- Warehouse ids are integers throughout, and so are the active ids. The source turns each
  row's id into a string (`bot/metrics.py:64`) and compares it with the active ids
  (`:69`, `:99`). The model assumes the active ids come in the same form as the row ids, and
  `str()` is injective, so those comparisons are unaffected. An active set of Python
  integers, as in `tests/test_metrics.py:11`, matches no string id, so in the source nothing
  is active there: `Metrics.TestScenarioNothingActive` states that outcome and
  `Metrics.TestScenarioFirstActive` the one the test's `{1}` names.
- The `set` of regions that `_weights` iterates is visited in first-appearance order. The
  sums do not depend on that order (`Metrics.GlobalSpeedOrderIndependent`).
- Reads of the `defaultdict` `best_active` at `bot/metrics.py:103` and `:113` insert `inf`
  into the view as a side effect. The view here is a value, so that insertion is not
  modelled; it changes no computed number.
- DataIo: when `int()` fails on `warehouse_id` (`bot/data_io.py:44`), the error escapes as a
  plain `ValueError`, not a `ValidationError`. The model reports it as a row failure and does
  not distinguish the exception type.
- In `_extract_period`, the collection of dates is not modelled: the column-name test,
  `pd.to_datetime`, the date regex and `strptime`. Dates arrive as positions on the time
  line; only the min/max step is modelled.
- Sheets with two columns of the same normalised name are not modelled. For those, pandas
  returns a frame, not a column.
- Column headers that are not strings are not modelled: headers are taken as already
  converted by `str()`.
- Boolean cells are not modelled; `_to_number` would read them as 0 or 1.
- `Strings.Lower` lowers only ASCII, Latin-1 and Cyrillic letters; every other character is
  kept, unlike Python's full Unicode `str.lower()`.

## Findings

| source | as written | input that shows it | evidently intended | confidence | as-written member | corrected member |
|---|---|---|---|---|---|---|
| bot/metrics.py:48-51 | a region of weight 0 that no active warehouse reaches passes the infinity test (its weight is not positive), then contributes `0 * inf`, which is NaN, so the average time is NaN | best active times {msk: 5 h}, weights {msk: 1.0, spb: 0.0} (sales only in msk, spb served only by an inactive warehouse) | a region of weight 0 contributes nothing, so the average is 5 h | not executed; high | Metrics.WeightedAvgTimeAsWritten, Metrics.WeightedAvgTimeNaNWitness | Metrics.WeightedAvgTime, Metrics.PoisonedExactly |
| bot/data_io.py:64-69 | an empty `orders` cell reads as NaN, `float` accepts it and `nan < 0` is false, so the row is accepted with NaN orders | a sales table with one row: region_code "msk", orders empty | an empty `orders` is rejected like any other non-numeric value, so every accepted value is a number ≥ 0; `parse_speeds` handles its empty cells explicitly | not executed; medium | DataIo.OrdersAsWritten, DataIo.OrdersAsWrittenAcceptsMissing | DataIo.OrdersOf, DataIo.OrdersOfAccepted |
| tests/test_report_parser.py:32 | the test's first row has the text "01.01.2026 к перечислению за товар", which matches the payout keywords, so by `wbbot/report_parser.py:106-108` the row adds the largest number in the whole row, 219312.00 (the sales figure); no column header matches, so `payout_goods` is 219312.00 | the two-row sheet of `tests/test_report_parser.py:9-21`, with `float` failing on the date and label texts | cannot be determined from the code: the test expects the "Сумма" value beside the label (197853.73), and its net profit 92225.01 equals 197853.73 − 13158.72 − 92470.00, the total-payment formula, although no keyword of this sheet yields a total payment | not executed; medium | ReportParser.TestSheetPayout | none: with the intent unknown, the model keeps the code's row rule (ReportParser.RowContributionCases) |
