/**
 * Where the three blocks sit on the 'Financial Statements' sheet
 * (excel_model_test_1.py:79-81, 90-92, 95-101). Rows and columns are 0-based
 * unless a name says otherwise. Each block is written by `to_excel` with
 * `startcol=1` and `index=False`: the header row (the 'Metric' cell and the
 * year labels) at the block's start row, then one row per metric; the
 * 'Metric' column is column B and year i is the column right of it plus i.
 */
module Layout {

  /** `startcol=1`: the 'Metric' column of every block is column B. */
  const StartCol: nat := 1

  /** Reference layout: a block occupies its header row and its data rows, and one blank row follows it. */
  function BlockStart(rowCounts: seq<nat>, k: nat): nat
    requires k <= |rowCounts|
  {
    if k == 0 then 0 else BlockStart(rowCounts, k - 1) + rowCounts[k - 1] + 2
  }

  /**
   * The `startrow` arguments of lines 79-81, for the income statement,
   * balance sheet and cash flow. The income statement starts at the top and
   * each later block starts two rows below the last data row of the block
   * before it: past that block's header, its data rows and one blank row.
   */
  function StartRows(incomeRows: nat, balanceRows: nat): (rows: seq<nat>)
    ensures |rows| == 3
    ensures rows[0] == 0
    ensures rows[1] == rows[0] + 1 + incomeRows + 1
    ensures rows[2] == rows[1] + 1 + balanceRows + 1
  {
    [0, incomeRows + 2, incomeRows + balanceRows + 4]
  }

  /**
   * Where `to_excel(startrow=startRow, startcol=1, index=False)` puts data cell
   * (metric m, year column i): its header row (the 'Metric' cell and the year
   * labels) is `startRow`, metric m is the row `1 + m` below it, the 'Metric'
   * column is `StartCol` and year i is column `StartCol + 1 + i`. This is how
   * the model takes pandas to lay a table out; pandas is not part of it.
   */
  function TableCell(startRow: nat, m: nat, i: nat): (cell: (nat, nat))
    ensures startRow < cell.0 && StartCol < cell.1
  {
    (startRow + 1 + m, StartCol + 1 + i)
  }

  /** The 1-based rows of the bold section labels `'B{...}'` (lines 90-92): each block's header row. */
  function LabelRowsOneBased(incomeRows: nat, balanceRows: nat): (rows: seq<nat>)
    ensures |rows| == 3
    ensures forall k :: 0 <= k < 3 ==> rows[k] == StartRows(incomeRows, balanceRows)[k] + 1
  {
    [1, incomeRows + 3, incomeRows + balanceRows + 5]
  }

  /**
   * The rows where `write_column` puts the historical values of each block
   * (lines 96-98): each block's first data row. The numbers are those of
   * LabelRowsOneBased, which counts from 1 what this counts from 0; that they
   * agree is the point of the two definitions.
   */
  function ValueRows(incomeRows: nat, balanceRows: nat): (rows: seq<nat>)
    ensures |rows| == 3
    ensures forall k :: 0 <= k < 3 ==> rows[k] == TableCell(StartRows(incomeRows, balanceRows)[k], 0, 0).0
  {
    [1, incomeRows + 3, incomeRows + balanceRows + 5]
  }

  /** `enumerate(years_historical, start=2)` (line 95): the column of historical year i, the one `to_excel` gave year i. */
  function HistoricalColumn(i: nat): (col: nat)
    ensures col == TableCell(0, 0, i).1
  {
    i + 2
  }

  /**
   * `enumerate(years_projection, start=len(years_historical) + 2)` (line 101):
   * the column of projection year j, the one `to_excel` gave year column
   * `numHistorical + j`.
   */
  function ProjectionColumn(numHistorical: nat, j: nat): (col: nat)
    ensures col == TableCell(0, 0, numHistorical + j).1
  {
    numHistorical + 2 + j
  }

  /** The start rows are the reference layout: every block starts after the earlier blocks, each with its header and one blank row. */
  lemma {:induction false} StartRowsFollowBlocks(incomeRows: nat, balanceRows: nat, cashRows: nat, k: nat)
    requires k < 3
    ensures StartRows(incomeRows, balanceRows)[k] == BlockStart([incomeRows, balanceRows, cashRows], k)
  {
    var counts := [incomeRows, balanceRows, cashRows];
    if k >= 1 {
      assert BlockStart(counts, 1) == incomeRows + 2 by {
        assert BlockStart(counts, 0) == 0;
      }
      if k == 2 {
        assert BlockStart(counts, 2) == BlockStart(counts, 1) + balanceRows + 2;
      }
    }
  }

  /** Growing an earlier block by d rows moves every later block down by exactly d. */
  lemma StartRowsShift(incomeRows: nat, balanceRows: nat, d: nat, k: nat)
    requires k < 3
    ensures k >= 1 ==> StartRows(incomeRows + d, balanceRows)[k] == StartRows(incomeRows, balanceRows)[k] + d
    ensures k == 2 ==> StartRows(incomeRows, balanceRows + d)[k] == StartRows(incomeRows, balanceRows)[k] + d
    ensures k == 0 ==> StartRows(incomeRows + d, balanceRows + d)[k] == 0
  {
  }

  /** The historical values go to the cells where `to_excel` put the same table cells. */
  lemma ValuesOnDataRows(incomeRows: nat, balanceRows: nat, k: nat, m: nat, i: nat)
    requires k < 3
    ensures (ValueRows(incomeRows, balanceRows)[k] + m, HistoricalColumn(i))
         == TableCell(StartRows(incomeRows, balanceRows)[k], m, i)
  {
  }

  /** Projection columns lie right of every historical column, and the first follows the last historical one directly. */
  lemma ProjectionColumnsFollowHistory(numHistorical: nat, j: nat)
    ensures forall i :: 0 <= i < numHistorical ==> HistoricalColumn(i) < ProjectionColumn(numHistorical, j)
    ensures numHistorical > 0 ==> ProjectionColumn(numHistorical, 0) == HistoricalColumn(numHistorical - 1) + 1
  {
  }
}
