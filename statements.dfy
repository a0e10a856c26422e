/**
 * The projection years (excel_model_test_1.py:22) and the three statement
 * tables (excel_model_test_1.py:25-57). The source keys each table by year in a
 * dictionary; here a table is an ordered grid, one row per metric and one
 * column per year, historical years first.
 */
module Statements {
  import opened Wrappers

  predicate StrictlyIncreasing(s: seq<int>) {
    forall i, j :: 0 <= i < j < |s| ==> s[i] < s[j]
  }

  /**
   * `years_projection`: `count` years following the last historical year.
   * `range` of a non-positive count is empty. The last historical year is
   * read once per element, so an empty history is an error only when at
   * least one year is asked for.
   */
  function ProjectionYears(yearsHistorical: seq<int>, count: int): (r: Option<seq<int>>)
    ensures r.None? <==> yearsHistorical == [] && count > 0
    ensures r.Some? ==> |r.value| == if count > 0 then count else 0
    ensures r.Some? && count > 0 ==> r.value[0] == yearsHistorical[|yearsHistorical| - 1] + 1
    ensures r.Some? ==> forall i :: 0 <= i < |r.value| - 1 ==> r.value[i + 1] == r.value[i] + 1
  {
    if count <= 0 then Some([])
    else if yearsHistorical == [] then None
    else Some(seq(count, i => yearsHistorical[|yearsHistorical| - 1] + i + 1))
  }

  /** Element i of the projection is the last historical year plus i + 1. */
  lemma {:induction false} ProjectionYearAt(yearsHistorical: seq<int>, count: int, i: nat)
    requires ProjectionYears(yearsHistorical, count).Some?
    requires i < |ProjectionYears(yearsHistorical, count).value|
    ensures ProjectionYears(yearsHistorical, count).value[i] == yearsHistorical[|yearsHistorical| - 1] + i + 1
  {
    if i > 0 {
      ProjectionYearAt(yearsHistorical, count, i - 1);
    }
  }

  /**
   * With a strictly increasing history, every year label of a table
   * (history followed by projection) is distinct, so the source's
   * year-keyed dictionary has one entry per column, in column order.
   */
  lemma YearLabelsIncreasing(yearsHistorical: seq<int>, count: int)
    requires StrictlyIncreasing(yearsHistorical)
    requires ProjectionYears(yearsHistorical, count).Some?
    ensures StrictlyIncreasing(yearsHistorical + ProjectionYears(yearsHistorical, count).value)
  {
    var p := ProjectionYears(yearsHistorical, count).value;
    var all := yearsHistorical + p;
    forall i, j | 0 <= i < j < |all| ensures all[i] < all[j] {
      if j >= |yearsHistorical| {
        ProjectionYearAt(yearsHistorical, count, j - |yearsHistorical|);
        if i >= |yearsHistorical| {
          ProjectionYearAt(yearsHistorical, count, i - |yearsHistorical|);
        }
      }
    }
  }

  /** A statement table: the 'Metric' names, the year of each column and the cell grid. */
  datatype Statement = Statement(metrics: seq<string>, years: seq<int>, cells: seq<seq<Option<int>>>)

  const IncomeMetrics: seq<string> := ["Revenue", "Costs", "Profit"]
  const BalanceMetrics: seq<string> := ["Assets", "Liabilities", "Equity"]
  const CashFlowMetrics: seq<string> := ["Operating Cash Flow", "Investing Cash Flow", "Financing Cash Flow"]

  /** One row per metric, one entry per year in every row. */
  predicate WellShaped(t: Statement) {
    |t.cells| == |t.metrics| && forall m :: 0 <= m < |t.cells| ==> |t.cells[m]| == |t.years|
  }

  /** The first `numHistorical` cells of row m hold `series[m]` literally, for every given series. */
  predicate HoldsHistory(t: Statement, numHistorical: nat, series: seq<seq<int>>) {
    |series| <= |t.cells| && numHistorical <= |t.years| &&
    forall m :: 0 <= m < |series| ==>
      numHistorical <= |series[m]| && numHistorical <= |t.cells[m]| &&
      forall i :: 0 <= i < numHistorical ==> t.cells[m][i] == Some(series[m][i])
  }

  /** Every cell from column `numHistorical` on is empty. */
  predicate ProjectionEmpty(t: Statement, numHistorical: nat) {
    forall m, i :: 0 <= m < |t.cells| && numHistorical <= i < |t.cells[m]| ==> t.cells[m][i] == None
  }

  /** A metric row of length `numColumns`: the literal input in a historical column, None elsewhere. */
  function MetricRow(series: seq<int>, numHistorical: nat, numColumns: nat): (row: seq<Option<int>>)
    requires numHistorical <= |series|
    ensures |row| == numColumns
    ensures forall i :: 0 <= i < numColumns ==> (row[i].Some? <==> i < numHistorical)
  {
    seq(numColumns, i requires 0 <= i < numColumns =>
      if i < numHistorical then Some(series[i]) else None)
  }

  /**
   * The comprehension shared by the three tables: one column per year of
   * `yearsHistorical + yearsProjection`, each holding the i-th entry of
   * every series when i is a historical index. A series shorter than the
   * history raises an IndexError in the source.
   */
  function Assemble(metrics: seq<string>, yearsHistorical: seq<int>, yearsProjection: seq<int>,
                    series: seq<seq<int>>): (r: Option<Statement>)
    requires |series| == |metrics|
    ensures r.None? <==> exists m :: 0 <= m < |series| && |series[m]| < |yearsHistorical|
    ensures r.Some? ==> WellShaped(r.value) && r.value.metrics == metrics
    ensures r.Some? ==> r.value.years == yearsHistorical + yearsProjection
    ensures r.Some? ==> HoldsHistory(r.value, |yearsHistorical|, series)
    ensures r.Some? ==> ProjectionEmpty(r.value, |yearsHistorical|)
  {
    var n, columns := |yearsHistorical|, |yearsHistorical| + |yearsProjection|;
    if exists m :: 0 <= m < |series| && |series[m]| < n then None
    else Some(Statement(metrics, yearsHistorical + yearsProjection,
                        seq(|series|, m requires 0 <= m < |series| => MetricRow(series[m], n, columns))))
  }

  /** `revenue_historical[i] - costs_historical[i]` for every historical index i: what is left of revenue after costs. */
  function ProfitSeries(revenue: seq<int>, costs: seq<int>, numHistorical: nat): (profit: seq<int>)
    requires numHistorical <= |revenue| && numHistorical <= |costs|
    ensures |profit| == numHistorical
    ensures forall i :: 0 <= i < numHistorical ==> costs[i] + profit[i] == revenue[i]
  {
    seq(numHistorical, i requires 0 <= i < numHistorical => revenue[i] - costs[i])
  }

  /** `income_statement` (lines 25-31): Revenue, Costs and the derived Profit. */
  function IncomeStatement(yearsHistorical: seq<int>, yearsProjection: seq<int>,
                           revenue: seq<int>, costs: seq<int>): (r: Option<Statement>)
    ensures r.None? <==> |revenue| < |yearsHistorical| || |costs| < |yearsHistorical|
    ensures r.Some? ==> WellShaped(r.value) && r.value.metrics == IncomeMetrics
    ensures r.Some? ==> r.value.years == yearsHistorical + yearsProjection
    ensures r.Some? ==> HoldsHistory(r.value, |yearsHistorical|, [revenue, costs])
    ensures r.Some? ==> ProjectionEmpty(r.value, |yearsHistorical|)
    ensures r.Some? ==> forall i :: 0 <= i < |yearsHistorical| ==>
      r.value.cells[2][i] == Some(r.value.cells[0][i].value - r.value.cells[1][i].value)
  {
    var n := |yearsHistorical|;
    if |revenue| < n || |costs| < n then None
    else
      var t := Assemble(IncomeMetrics, yearsHistorical, yearsProjection,
                        [revenue, costs, ProfitSeries(revenue, costs, n)]);
      assert HoldsHistory(t.value, n, [revenue, costs, ProfitSeries(revenue, costs, n)]);
      t
  }

  /** `balance_sheet` (lines 38-44). */
  function BalanceSheet(yearsHistorical: seq<int>, yearsProjection: seq<int>,
                        assets: seq<int>, liabilities: seq<int>, equity: seq<int>): (r: Option<Statement>)
    ensures r.None? <==> |assets| < |yearsHistorical| || |liabilities| < |yearsHistorical| || |equity| < |yearsHistorical|
    ensures r.Some? ==> WellShaped(r.value) && r.value.metrics == BalanceMetrics
    ensures r.Some? ==> r.value.years == yearsHistorical + yearsProjection
    ensures r.Some? ==> HoldsHistory(r.value, |yearsHistorical|, [assets, liabilities, equity])
    ensures r.Some? ==> ProjectionEmpty(r.value, |yearsHistorical|)
  {
    var series := [assets, liabilities, equity];
    var r := Assemble(BalanceMetrics, yearsHistorical, yearsProjection, series);
    assert series[0] == assets && series[1] == liabilities && series[2] == equity;
    r
  }

  /** `cash_flow_statement` (lines 51-57). */
  function CashFlowStatement(yearsHistorical: seq<int>, yearsProjection: seq<int>,
                             operating: seq<int>, investing: seq<int>, financing: seq<int>): (r: Option<Statement>)
    ensures r.None? <==> |operating| < |yearsHistorical| || |investing| < |yearsHistorical| || |financing| < |yearsHistorical|
    ensures r.Some? ==> WellShaped(r.value) && r.value.metrics == CashFlowMetrics
    ensures r.Some? ==> r.value.years == yearsHistorical + yearsProjection
    ensures r.Some? ==> HoldsHistory(r.value, |yearsHistorical|, [operating, investing, financing])
    ensures r.Some? ==> ProjectionEmpty(r.value, |yearsHistorical|)
  {
    var series := [operating, investing, financing];
    var r := Assemble(CashFlowMetrics, yearsHistorical, yearsProjection, series);
    assert series[0] == operating && series[1] == investing && series[2] == financing;
    r
  }

  /** The hard-coded inputs of the script, taken as parameters. */
  datatype Inputs = Inputs(
    yearsHistorical: seq<int>,
    revenue: seq<int>, costs: seq<int>,
    assets: seq<int>, liabilities: seq<int>, equity: seq<int>,
    operatingCf: seq<int>, investingCf: seq<int>, financingCf: seq<int>,
    numProjectionYears: int)

  datatype Tables = Tables(yearsProjection: seq<int>, income: Statement, balance: Statement, cashFlow: Statement)

  /** Lines 22-57 in order: the projection years, then the three tables; the first failure stops the script. */
  function BuildTables(inp: Inputs): (r: Option<Tables>)
    ensures var n := |inp.yearsHistorical|;
      r.None? <==> (|| (n == 0 && inp.numProjectionYears > 0)
                    || |inp.revenue| < n || |inp.costs| < n
                    || |inp.assets| < n || |inp.liabilities| < n || |inp.equity| < n
                    || |inp.operatingCf| < n || |inp.investingCf| < n || |inp.financingCf| < n)
    ensures r.Some? ==> Some(r.value.yearsProjection) == ProjectionYears(inp.yearsHistorical, inp.numProjectionYears)
    ensures r.Some? ==> Some(r.value.income) == IncomeStatement(inp.yearsHistorical, r.value.yearsProjection, inp.revenue, inp.costs)
    ensures r.Some? ==> Some(r.value.balance) == BalanceSheet(inp.yearsHistorical, r.value.yearsProjection, inp.assets, inp.liabilities, inp.equity)
    ensures r.Some? ==> Some(r.value.cashFlow) == CashFlowStatement(inp.yearsHistorical, r.value.yearsProjection, inp.operatingCf, inp.investingCf, inp.financingCf)
  {
    match ProjectionYears(inp.yearsHistorical, inp.numProjectionYears)
    case None => None
    case Some(proj) =>
      var income := IncomeStatement(inp.yearsHistorical, proj, inp.revenue, inp.costs);
      var balance := BalanceSheet(inp.yearsHistorical, proj, inp.assets, inp.liabilities, inp.equity);
      var cash := CashFlowStatement(inp.yearsHistorical, proj, inp.operatingCf, inp.investingCf, inp.financingCf);
      if income.None? || balance.None? || cash.None? then None
      else Some(Tables(proj, income.value, balance.value, cash.value))
  }

  /** The literal values of the first `count` cells of row m (all of them historical). */
  function HistoricalValues(t: Statement, m: nat, count: nat): (values: seq<int>)
    requires m < |t.cells| && count <= |t.cells[m]|
    requires forall i :: 0 <= i < count ==> t.cells[m][i].Some?
    ensures |values| == count
  {
    seq(count, i requires 0 <= i < count => t.cells[m][i].value)
  }

  /** Reading back the historical columns of the income statement reproduces its inputs. */
  lemma IncomeReadBack(yearsHistorical: seq<int>, yearsProjection: seq<int>, revenue: seq<int>, costs: seq<int>)
    requires IncomeStatement(yearsHistorical, yearsProjection, revenue, costs).Some?
    ensures var t, n := IncomeStatement(yearsHistorical, yearsProjection, revenue, costs).value, |yearsHistorical|;
      HistoricalValues(t, 0, n) == revenue[..n] &&
      HistoricalValues(t, 1, n) == costs[..n] &&
      HistoricalValues(t, 2, n) == ProfitSeries(revenue, costs, n)
  {
    var t, n := IncomeStatement(yearsHistorical, yearsProjection, revenue, costs).value, |yearsHistorical|;
    assert HoldsHistory(t, n, [revenue, costs]);
    assert forall i :: 0 <= i < n ==> t.cells[0][i] == Some(revenue[i]) && t.cells[1][i] == Some(costs[i]);
  }

  /** The scenario of three historical years and two projection years. */
  lemma ExampleScenario()
    ensures ProjectionYears([2021, 2022, 2023], 2) == Some([2024, 2025])
    ensures var t := IncomeStatement([2021, 2022, 2023], [2024, 2025], [85000, 90000, 95000], [40000, 42000, 44000]);
      t.Some? && t.value.cells[2][2] == Some(51000) && t.value.cells[0][3] == None
  {
    var p := ProjectionYears([2021, 2022, 2023], 2);
    assert p.value[0] == 2024 && p.value[1] == 2025;
    assert p.value == [2024, 2025];
  }
}
