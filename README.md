# A verified model of the three-statement spreadsheet generator

`excel_model_test_1.py` builds a small financial model and writes it as a
spreadsheet. It has three parts:

- a column-letter encoder, `col_n`;
- the projection years and three statement tables: income statement,
  balance sheet and cash flow;
- the placement of those tables on the 'Financial Statements' sheet, with
  literal historical values and projection formulas that grow the previous
  year by the growth rate held in cell B1 of the 'Control Panel' sheet.

This project models the computational core of the script in Dafny and
proves what it promises.

- `ColumnLetters` (column_letters.dfy) holds `col_n`:
  - the loop itself is the method `ColN`;
  - `ColumnLabel` is a recursive reference definition of the same label;
  - `LabelValue` is a decoder that reads a label in bijective base 26
    (A = 1, ..., Z = 26).

  Both round trips are proved, so the encoding is injective on positive
  column numbers and onto non-empty strings of letters. The width of a label
  is characterised exactly.
- `Statements` (statements.dfy) covers:
  - `years_projection`;
  - the three table comprehensions. Each table is modelled as an ordered
    grid (`seq<seq<Option<int>>>`), with one row per metric and one column
    per year, historical years first.

  The hard-coded series are parameters (`Inputs`). A series shorter than
  the history, or an empty history when projection years are asked for,
  makes the script raise `IndexError`; here these cases give `None`.
- `Layout` (layout.dfy) covers the row and column arithmetic of the
  `to_excel`, `write` and `write_column` calls. It proves that this
  arithmetic agrees with a reference layout: blocks stacked with a header
  row and one blank row each.
- `Formulas` (formulas.dfy) covers the three income-statement projection
  formula strings.

  It also defines a reader for the small formula language they use:
  - A1-style addresses, with optional `$` markers;
  - a quoted sheet name followed by `!`;
  - `ref*(1+sheetref)` and `ref-ref`.

  With the reader, what each formula string refers to is stated in cells,
  not characters. Revenue and costs read as the same row of the column to
  the left, times (1 + 'Control Panel'!B1, fixed in column and row). Profit
  reads as its own column's revenue minus its own costs.
- `Sheet` (sheet.dfy) puts the pieces together:
  - the historical-value loop (lines 95-98) and the income formula loop
    (lines 101-104) become the sequences of writes they issue;
  - it proves that every historical value written is the literal input of
    its metric and year, and that it lands in the cell where `to_excel`
    placed the same table cell;
  - it proves that every formula is placed past the last historical column
    and means what it is meant to.

Rows and columns are 0-based, as in the source's `write_*` calls, unless a
name says `OneBased`.

## Model

| member | source | states |
|---|---|---|
| `ColumnLetters.ColN` | excel_model_test_1.py:4-10 | the loop returns the label of n; for n > 0 it is non-empty, made only of 'A'..'Z', and decodes back to n; for n <= 0 the loop never runs and the result is "" |
| `ColumnLetters.ColumnLabel` | excel_model_test_1.py:6-10 | every character of the label is a letter A..Z, and the label is non-empty exactly when n > 0 |
| `ColumnLetters.LetterOf` | excel_model_test_1.py:9 | `chr(65 + remainder)` is a letter whose digit value is remainder + 1 |
| `ColumnLetters.LabelValueSign` | excel_model_test_1.py:7-9 | a string of letters decodes to a value >= 0, and to 0 only when it is empty |
| `ColumnLetters.DecodeEncode` | excel_model_test_1.py:7-9 | decoding the label of any n >= 0 in bijective base 26 gives n back |
| `ColumnLetters.EncodeDecode` | excel_model_test_1.py:7-9 | every string of letters is the label of its own decoded value |
| `ColumnLetters.LabelInjective` | excel_model_test_1.py:4-10 | distinct positive column numbers get distinct labels |
| `ColumnLetters.LabelSurjective` | excel_model_test_1.py:4-10 | every non-empty string of letters is the label of some positive column number |
| `ColumnLetters.LabelWidth` | excel_model_test_1.py:7-9 | the label of n > 0 has k letters exactly when MinOfWidth(k) <= n <= 26 * MinOfWidth(k) ("A...A" to "Z...Z") |
| `ColumnLetters.SingleLetterLabels` | excel_model_test_1.py:7-9 | columns 1..26 get the single letter at that position of the alphabet |
| `ColumnLetters.LabelExamples` | excel_model_test_1.py:4-10 | 1 → "A", 2 → "B", 26 → "Z", 27 → "AA", 52 → "AZ", 53 → "BA" |
| `Statements.ProjectionYears` | excel_model_test_1.py:22 | fails exactly when the history is empty and a year is asked for; otherwise it has max(count, 0) elements, starting at the last historical year + 1, each one more than the previous |
| `Statements.ProjectionYearAt` | excel_model_test_1.py:22 | element i is the last historical year + i + 1 |
| `Statements.YearLabelsIncreasing` | excel_model_test_1.py:22-30 | a strictly increasing history followed by its projection is strictly increasing, so every year key of a table is distinct |
| `Statements.ProfitSeries` | excel_model_test_1.py:29 | the profit of every historical year is what, added to that year's costs, gives its revenue |
| `Statements.Assemble` | excel_model_test_1.py:40-43 | fails exactly when some series is shorter than the history; otherwise the table is well shaped over history + projection years, holds every series literally in the historical columns and is empty in every projection column |
| `Statements.IncomeStatement` | excel_model_test_1.py:25-31 | as Assemble for Revenue and Costs, and the Profit cell of every historical column equals Revenue minus Costs of that column |
| `Statements.BalanceSheet` | excel_model_test_1.py:38-44 | fails exactly when a series is shorter than the history; otherwise Assets, Liabilities and Equity are held literally in the historical columns and the projection columns are empty |
| `Statements.CashFlowStatement` | excel_model_test_1.py:51-57 | the same for the operating, investing and financing cash flows |
| `Statements.BuildTables` | excel_model_test_1.py:22-57 | a run fails exactly when it asks for projection years with no history, or some series is shorter than the history (the cases where the script raises `IndexError`); a successful run's projection years and three tables are the ones the four definitions above give for its inputs |
| `Statements.IncomeReadBack` | excel_model_test_1.py:25-31 | reading back the historical columns of the income statement gives the revenue and costs inputs and their differences |
| `Statements.ExampleScenario` | excel_model_test_1.py:13-31 | three historical years and two projection years give years 2024 and 2025, a 2023 profit of 51000 and an empty 2024 revenue cell |
| `Layout.StartRows` | excel_model_test_1.py:79-81 | the income statement starts at row 0, and each later block starts past the previous block's header row, its data rows and one blank row |
| `Layout.TableCell` | excel_model_test_1.py:79-81 | a table's data cell lies below its header row and right of its 'Metric' column (the model's reading of how `to_excel` with `startcol=1`, `index=False` lays a table out) |
| `Layout.LabelRowsOneBased` | excel_model_test_1.py:90-92 | each bold section label's 1-based row is its block's start row, the header row of that table |
| `Layout.ValueRows` | excel_model_test_1.py:96-98 | each block's historical values start on the row where `to_excel` put that table's first metric |
| `Layout.HistoricalColumn` | excel_model_test_1.py:95 | historical year i is written to the column where `to_excel` put year column i |
| `Layout.ProjectionColumn` | excel_model_test_1.py:101 | projection year j is written to the column where `to_excel` put year column `len(years_historical) + j` |
| `Layout.StartRowsFollowBlocks` | excel_model_test_1.py:79-81 | each `startrow` is the reference layout's start: 0, then each block after the previous block's header, its data rows and one blank row |
| `Layout.StartRowsShift` | excel_model_test_1.py:80-81 | growing the income statement or the balance sheet by d rows moves every later block down by exactly d |
| `Layout.ValuesOnDataRows` | excel_model_test_1.py:95-98 | value m of a historical year column is written to the cell where `to_excel` placed table cell (m, year) |
| `Layout.ProjectionColumnsFollowHistory` | excel_model_test_1.py:95-101 | every projection column lies right of every historical one, and the first follows the last historical one directly |
| `Formulas.RevenueFormula` | excel_model_test_1.py:102 | the revenue formula of column c >= 1 reads as the revenue cell (row 1) of column c - 1, times (1 + Control Panel B1) |
| `Formulas.CostsFormula` | excel_model_test_1.py:103 | the costs formula of column c >= 1 reads as the costs cell (row 2) of column c - 1, times (1 + Control Panel B1) |
| `Formulas.ProfitFormula` | excel_model_test_1.py:104 | the profit formula of column c >= 0 reads as the revenue cell (row 1) minus the costs cell (row 2) of column c itself |
| `Formulas.GrowthRateCellAddress` | excel_model_test_1.py:64-65 | 'B1', where the growth rate is written, reads as column 1, row 0, which is the cell the formulas refer to |
| `Formulas.GrowthRateRefRoundTrip` | excel_model_test_1.py:102-103 | `'Control Panel'!$B$1` reads as cell B1 of the Control Panel sheet, fixed in column and row |
| `Formulas.GrowthFormulaReads` | excel_model_test_1.py:102-103 | `=<letters><digits>*(1+'Control Panel'!$B$1)` reads as the cell the letters and digits name, grown by the Control Panel rate |
| `Formulas.DifferenceFormulaReads` | excel_model_test_1.py:104 | `=<letters><d1>-<letters><d2>` reads as row d1 minus row d2 of the column the letters name |
| `Sheet.HistoricalWrites` | excel_model_test_1.py:95-98 | one column write per block for each historical year |
| `Sheet.IncomeProjectionWrites` | excel_model_test_1.py:101-104 | three formula writes (revenue, costs, profit) for each projection year |
| `Sheet.HistoricalWritesLand` | excel_model_test_1.py:79-98 | value m of the write for year i and block b lands where `to_excel` put table cell (m, i) of that block, and it is that cell's content |
| `Sheet.HistorySeries` | excel_model_test_1.py:25-57 | the series block b shows over the history: revenue, costs and a profit equal to revenue minus costs; assets, liabilities, equity; the three cash flows |
| `Sheet.BuiltTablesHoldInputs` | excel_model_test_1.py:22-57 | the three tables of a run are well shaped over its historical years and each holds its input series there literally |
| `Sheet.BlockValueWritten` | excel_model_test_1.py:95-98 | the write for year i of a block carries, as value m, that block's m-th historical series at year i |
| `Sheet.HistoricalWritesCarryInputs` | excel_model_test_1.py:95-98 | end to end: value m of the write for year i and block b is the input of that block's metric m at year i, with Profit = revenue - costs |
| `Sheet.RevenueWriteMeaning` | excel_model_test_1.py:102 | the revenue write on income row 1 means row 1 of the column to the left, grown by the rate |
| `Sheet.CostsWriteMeaning` | excel_model_test_1.py:103 | the costs write on income row 2 means row 2 of the column to the left, grown by the rate |
| `Sheet.ProfitWriteMeaning` | excel_model_test_1.py:104 | the profit write on income row 3 means its own column's row 1 minus row 2 |
| `Sheet.ProjectionWritesPlacement` | excel_model_test_1.py:101-104 | formula write k goes to projection column k / 3, right of every historical column, on income row 1 + k % 3. The column to its left is the previous projection column, else the last historical column, else (no history) the 'Metric' column |
| `Sheet.ProjectionWritesMeaning` | excel_model_test_1.py:101-104 | every income formula written reads as the formula meant for its row: grown from the column to the left on rows 1 and 2, revenue minus costs on row 3 |
| `Sheet.RunFormulasFollowHistory` | excel_model_test_1.py:101-104 | a run that writes a projection formula has at least one historical year (line 22 raises otherwise), and each formula's left-hand column is the previous projection column or, for the first, the last historical column |
| `Sheet.FormulasMissHistoricalValues` | excel_model_test_1.py:95-104 | no formula is written in a column that holds historical values |

## Left out

- Writing the workbook is not modelled. This covers `pd.ExcelWriter`, `add_worksheet`, `to_excel`, `write`, `write_column`, `write_formula`, `set_column`, `hide_gridlines` and `add_format` (lines 60-99). These are file output through foreign libraries. The model keeps only the rows, columns, values and formula texts passed to them.
- The data validation of B1 to [0, 1] (line 66) is not modelled. It is metadata handed to the spreadsheet library, and the script itself enforces nothing.
- The growth rate value (line 19) and the evaluation of formulas are not modelled. The rate is a float, and formulas are evaluated by the spreadsheet application. Formulas are modelled as strings, together with the cells they refer to.
- The hard-coded series and counts (lines 13-18, 34-36, 47-49) are not modelled as constants. They are parameters; `Statements.ExampleScenario` instantiates a run like the script's, with two projection years.
- The balance-sheet and cash-flow formula writes (lines 106-112) are not modelled:
  - they hard-code the letters `B` and `C` with a number computed from the column index;
  - they write to income row `len(df_income_statement)` at columns `col + 3 .. col + 5`;
  - lines 110-112 write over the cash-flow rows at fixed offsets.

  They follow no rule that could be stated as a property. In particular, the balance sheet and the cash flow are not projected the way the income statement is, and the model does not pretend that they are.
- The pandas types are not modelled: how `pd.DataFrame` converts the dictionaries, including what an absent value becomes, is outside the model. The model keeps each cell as `Option<int>`, `None` for a projection cell.
- The placement of a table by `to_excel` (lines 79-81) is an abstraction: `Layout.TableCell` states how the model takes pandas to lay out a table with `startcol=1` and `index=False` (header row at `startrow`, the 'Metric' column at column B, metric m on row `startrow + 1 + m`, year i in column `C + i`). pandas itself is not part of the model.
- Duplicate year labels are not modelled as dictionary keys. The source keys each table by year, so duplicate labels would collapse. The model is positional; `Statements.YearLabelsIncreasing` shows that labels are distinct when the history is strictly increasing.
- No run writes a projection formula without historical years: line 22 raises `IndexError` first, and `Sheet.RunFormulasFollowHistory` states it. `Sheet.ProjectionWritesPlacement` takes the counts as free parameters, so its no-history clause (the first formula then refers to column B, the 'Metric' column) describes no run of the script.
