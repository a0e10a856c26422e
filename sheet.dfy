/**
 * The two write loops of the 'Financial Statements' sheet: the historical
 * values (excel_model_test_1.py:95-98) and the income-statement projection
 * formulas (excel_model_test_1.py:101-104), as the sequences of writes they
 * issue, in order.
 */
module Sheet {
  import opened Wrappers
  import opened Statements
  import opened Layout
  import opened Formulas

  /** `write_column(row, col, values)`: the values go down column `col` from row `row`. */
  datatype ColumnWrite = ColumnWrite(row: nat, col: nat, values: seq<Option<int>>)

  /** `write_formula(row, col, text)`. */
  datatype FormulaWrite = FormulaWrite(row: nat, col: nat, text: string)

  /** Block b of the sheet: 0 the income statement, 1 the balance sheet, 2 the cash flow. */
  function Block(tables: Tables, b: nat): Statement
    requires b < 3
  {
    if b == 0 then tables.income else if b == 1 then tables.balance else tables.cashFlow
  }

  /** The tables of one run, all well shaped over the same `numHistorical` historical years. */
  predicate Consistent(tables: Tables, numHistorical: nat) {
    forall b :: 0 <= b < 3 ==> WellShaped(Block(tables, b)) && numHistorical <= |Block(tables, b).years|
  }

  /** `df[year]` for year column i: the i-th cell of every metric row. */
  function YearColumn(t: Statement, i: nat): (values: seq<Option<int>>)
    requires WellShaped(t) && i < |t.years|
    ensures |values| == |t.cells|
    ensures forall m :: 0 <= m < |values| ==> values[m] == t.cells[m][i]
  {
    seq(|t.cells|, m requires 0 <= m < |t.cells| => t.cells[m][i])
  }

  /**
   * Lines 95-98: for each historical year i, in order, one column write per
   * block. `len(df)` is the number of metric rows of a table.
   */
  function HistoricalWrites(tables: Tables, numHistorical: nat): (ws: seq<ColumnWrite>)
    requires Consistent(tables, numHistorical)
    ensures |ws| == 3 * numHistorical
  {
    var rows := ValueRows(|tables.income.metrics|, |tables.balance.metrics|);
    seq(3 * numHistorical, k requires 0 <= k < 3 * numHistorical =>
      ColumnWrite(rows[k % 3], HistoricalColumn(k / 3), YearColumn(Block(tables, k % 3), k / 3)))
  }

  /** Lines 101-104: for each projection column c, in order, the revenue, costs and profit formulas. */
  function IncomeProjectionWrites(numHistorical: nat, numProjection: nat): (ws: seq<FormulaWrite>)
    ensures |ws| == 3 * numProjection
  {
    seq(3 * numProjection, k requires 0 <= k < 3 * numProjection =>
      var c := ProjectionColumn(numHistorical, k / 3);
      if k % 3 == 0 then FormulaWrite(1, c, RevenueFormula(c))
      else if k % 3 == 1 then FormulaWrite(2, c, CostsFormula(c))
      else FormulaWrite(3, c, ProfitFormula(c)))
  }

  /**
   * Every historical value lands in the cell where `to_excel` put the same
   * table cell: value m of the write for year i and block b goes to
   * row `StartRows[b] + 1 + m`, column `StartCol + 1 + i`, and it is that
   * table's cell (m, i).
   */
  lemma HistoricalWritesLand(tables: Tables, numHistorical: nat, i: nat, b: nat, m: nat)
    requires Consistent(tables, numHistorical)
    requires i < numHistorical && b < 3 && m < |Block(tables, b).cells|
    ensures var w := HistoricalWrites(tables, numHistorical)[3 * i + b];
      m < |w.values| &&
      (w.row + m, w.col) == TableCell(StartRows(|tables.income.metrics|, |tables.balance.metrics|)[b], m, i) &&
      w.values[m] == Block(tables, b).cells[m][i]
  {
    var k := 3 * i + b;
    assert k / 3 == i && k % 3 == b;
    ValuesOnDataRows(|tables.income.metrics|, |tables.balance.metrics|, b, m, i);
  }

  /**
   * The input series that block b of a run shows over its historical years:
   * revenue, costs and profit; assets, liabilities and equity; the three
   * cash flows.
   */
  function HistorySeries(inp: Inputs, b: nat): (series: seq<seq<int>>)
    requires b < 3
    requires b == 0 ==> |inp.yearsHistorical| <= |inp.revenue| && |inp.yearsHistorical| <= |inp.costs|
    ensures |series| == 3
    ensures b == 0 ==> series[0] == inp.revenue && series[1] == inp.costs
    ensures b == 0 ==> |series[2]| == |inp.yearsHistorical| &&
                       forall i :: 0 <= i < |inp.yearsHistorical| ==> series[2][i] == inp.revenue[i] - inp.costs[i]
    ensures b == 1 ==> series == [inp.assets, inp.liabilities, inp.equity]
    ensures b == 2 ==> series == [inp.operatingCf, inp.investingCf, inp.financingCf]
  {
    if b == 0 then [inp.revenue, inp.costs, ProfitSeries(inp.revenue, inp.costs, |inp.yearsHistorical|)]
    else if b == 1 then [inp.assets, inp.liabilities, inp.equity]
    else [inp.operatingCf, inp.investingCf, inp.financingCf]
  }

  /**
   * The tables of a run that builds them are well shaped over its historical
   * years, and every block holds its input series there.
   */
  lemma BuiltTablesHoldInputs(inp: Inputs)
    requires BuildTables(inp).Some?
    ensures var tables, n := BuildTables(inp).value, |inp.yearsHistorical|;
      && Consistent(tables, n)
      && forall b :: 0 <= b < 3 ==> HoldsHistory(Block(tables, b), n, HistorySeries(inp, b))
  {
    var tables, n := BuildTables(inp).value, |inp.yearsHistorical|;
    assert Block(tables, 0) == tables.income && Block(tables, 1) == tables.balance && Block(tables, 2) == tables.cashFlow;
    assert HoldsHistory(tables.income, n, HistorySeries(inp, 0)) by {
      assert HoldsHistory(tables.income, n, [inp.revenue, inp.costs]);
    }
  }

  /** The write for year i of block b carries, as its value m, row m of the given history of that block. */
  lemma BlockValueWritten(tables: Tables, n: nat, b: nat, series: seq<seq<int>>, i: nat, m: nat)
    requires Consistent(tables, n) && b < 3
    requires HoldsHistory(Block(tables, b), n, series)
    requires i < n && m < |series|
    ensures HistoricalWrites(tables, n)[3 * i + b].values[m] == Some(series[m][i])
  {
    HistoricalWritesLand(tables, n, i, b, m);
  }

  /**
   * End to end for the historical values: in a run that builds its tables,
   * value m of the write for year i and block b is the input of that metric
   * and year (Profit: revenue minus costs, by ProfitSeries).
   */
  lemma HistoricalWritesCarryInputs(inp: Inputs, i: nat, b: nat, m: nat)
    requires BuildTables(inp).Some?
    requires i < |inp.yearsHistorical| && b < 3 && m < 3
    ensures var tables, n := BuildTables(inp).value, |inp.yearsHistorical|;
      Consistent(tables, n) &&
      HistoricalWrites(tables, n)[3 * i + b].values[m] == Some(HistorySeries(inp, b)[m][i])
  {
    BuiltTablesHoldInputs(inp);
    BlockValueWritten(BuildTables(inp).value, |inp.yearsHistorical|, b, HistorySeries(inp, b), i, m);
  }

  /** The formula each projection write is meant to hold, by income row: a grown row of the column to the left, or a difference. */
  predicate MeansIntended(w: FormulaWrite) {
    1 <= w.col &&
    ParseFormula(w.text) == if w.row < 3
      then Some(Grown(CellRef(w.col - 1, w.row, false, false), GrowthRateInput()))
      else Some(Difference(CellRef(w.col, 1, false, false), CellRef(w.col, 2, false, false)))
  }

  /** The text of a revenue formula reads as its contract says (stated on a plain string, so it can be applied to a field). */
  lemma RevenueText(col: nat, text: string)
    requires col >= 1 && text == RevenueFormula(col)
    ensures ParseFormula(text) == Some(Grown(CellRef(col - 1, 1, false, false), GrowthRateInput()))
  {
  }

  /** The text of a costs formula reads as its contract says. */
  lemma CostsText(col: nat, text: string)
    requires col >= 1 && text == CostsFormula(col)
    ensures ParseFormula(text) == Some(Grown(CellRef(col - 1, 2, false, false), GrowthRateInput()))
  {
  }

  /** The text of a profit formula reads as its contract says. */
  lemma ProfitText(col: nat, text: string)
    requires text == ProfitFormula(col)
    ensures ParseFormula(text) == Some(Difference(CellRef(col, 1, false, false), CellRef(col, 2, false, false)))
  {
  }

  /** A revenue formula (line 102) written on income row 1 means what it is meant to. */
  lemma RevenueWriteMeaning(w: FormulaWrite)
    requires w.col >= 1 && w.row == 1 && w.text == RevenueFormula(w.col)
    ensures MeansIntended(w)
  {
    RevenueText(w.col, w.text);
  }

  /** A costs formula (line 103) written on income row 2 means what it is meant to. */
  lemma CostsWriteMeaning(w: FormulaWrite)
    requires w.col >= 1 && w.row == 2 && w.text == CostsFormula(w.col)
    ensures MeansIntended(w)
  {
    CostsText(w.col, w.text);
  }

  /** A profit formula (line 104) written on income row 3 means what it is meant to. */
  lemma ProfitWriteMeaning(w: FormulaWrite)
    requires w.col >= 1 && w.row == 3 && w.text == ProfitFormula(w.col)
    ensures MeansIntended(w)
  {
    ProfitText(w.col, w.text);
  }

  /**
   * Where each projection formula goes. Write k goes to projection column
   * `k / 3`, past every historical column, on income row `1 + k % 3`
   * (Revenue, Costs, Profit). The column to its left is the previous
   * projection column, or, for the first one, the last historical column;
   * with no history at all, the 'Metric' column itself.
   */
  lemma ProjectionWritesPlacement(numHistorical: nat, numProjection: nat, k: nat)
    requires k < 3 * numProjection
    ensures var w := IncomeProjectionWrites(numHistorical, numProjection)[k];
      w.col == ProjectionColumn(numHistorical, k / 3) &&
      (forall i :: 0 <= i < numHistorical ==> HistoricalColumn(i) < w.col) &&
      w.row == ValueRows(|IncomeMetrics|, |BalanceMetrics|)[0] + k % 3 &&
      (k / 3 > 0 ==> w.col - 1 == ProjectionColumn(numHistorical, k / 3 - 1)) &&
      (k / 3 == 0 && numHistorical > 0 ==> w.col - 1 == HistoricalColumn(numHistorical - 1)) &&
      (k / 3 == 0 && numHistorical == 0 ==> w.col - 1 == StartCol)
  {
  }

  /**
   * What each projection formula means. Revenue and costs take the same
   * row of the column to the left, grown by the Control Panel's B1; profit
   * is the column's own revenue minus its own costs.
   */
  lemma ProjectionWritesMeaning(numHistorical: nat, numProjection: nat, k: nat)
    requires k < 3 * numProjection
    ensures MeansIntended(IncomeProjectionWrites(numHistorical, numProjection)[k])
  {
    var w := IncomeProjectionWrites(numHistorical, numProjection)[k];
    var c := ProjectionColumn(numHistorical, k / 3);
    if k % 3 == 0 {
      assert w == FormulaWrite(1, c, RevenueFormula(c));
      RevenueWriteMeaning(w);
    } else if k % 3 == 1 {
      assert w == FormulaWrite(2, c, CostsFormula(c));
      CostsWriteMeaning(w);
    } else {
      assert w == FormulaWrite(3, c, ProfitFormula(c));
      ProfitWriteMeaning(w);
    }
  }

  /**
   * In a run that builds its tables, projection formulas are only written
   * when there is history: an empty `years_historical` with projection
   * years asked for stops the script at line 22. So the column left of the
   * first formula is always the last historical column, never 'Metric'.
   */
  lemma RunFormulasFollowHistory(inp: Inputs, k: nat)
    requires BuildTables(inp).Some?
    requires k < 3 * |BuildTables(inp).value.yearsProjection|
    ensures var numHistorical := |inp.yearsHistorical|;
      var w := IncomeProjectionWrites(numHistorical, |BuildTables(inp).value.yearsProjection|)[k];
      numHistorical > 0 &&
      w.col - 1 == if k / 3 == 0 then HistoricalColumn(numHistorical - 1)
                   else ProjectionColumn(numHistorical, k / 3 - 1)
  {
    var tables := BuildTables(inp).value;
    assert |tables.yearsProjection| > 0;
    assert inp.yearsHistorical != [] by {
      assert ProjectionYears(inp.yearsHistorical, inp.numProjectionYears).Some?;
    }
    ProjectionWritesPlacement(|inp.yearsHistorical|, |tables.yearsProjection|, k);
  }

  /** No formula is written over a historical value: their columns never meet. */
  lemma FormulasMissHistoricalValues(tables: Tables, numHistorical: nat, numProjection: nat, h: nat, k: nat)
    requires Consistent(tables, numHistorical)
    requires h < 3 * numHistorical && k < 3 * numProjection
    ensures HistoricalWrites(tables, numHistorical)[h].col < IncomeProjectionWrites(numHistorical, numProjection)[k].col
  {
    ProjectionWritesPlacement(numHistorical, numProjection, k);
  }
}
