/** The two read-only analytics endpoints: the insights response (legacy
    totals, breakdowns, anomalies and the engine's report) and the
    dashboard (totals and one row per calendar month, in key order). */
module Reports {
  import opened Outcomes
  import opened StringOrder
  import opened Aggregation
  import opened Records
  import opened InsightEngine
  import opened Anomalies

  // ---------------------------------------------------------------------
  // Insights endpoint

  datatype InsightsResponse = InsightsResponse(
    totalExpenses: real,
    totalIncome: real,
    netBalance: real,
    savingsRate: real,
    categoryBreakdown: seq<(Key, real)>,
    incomeBreakdown: seq<(Key, real)>,
    anomalies: seq<Anomaly>,
    aiInsights: Insights,
    recommendations: seq<Recommendation>)

  /** The insights endpoint; the one failure is the anomaly report dividing
      by a zero category mean (answered with an error response). */
  function GetInsights(expenses: seq<Expense>, incomes: seq<Income>): (r: Result<InsightsResponse>)
    ensures r.Err? <==> ZeroMeanOutlier(expenses)
    ensures DetectAnomalies(expenses).Ok? ==> r.Ok? && r.value.anomalies == DetectAnomalies(expenses).value
    ensures r.Ok? ==> r.value.aiInsights == GenerateInsights(expenses, incomes)
  {
    DetectionFailsOnlyOnZeroMean(expenses);
    var detected := DetectAnomalies(expenses);
    if detected.Err? then Err(detected.failure)
    else
      var spent := TotalExpenses(expenses);
      var earned := TotalIncome(incomes);
      var ai := GenerateInsights(expenses, incomes);
      Ok(InsightsResponse(spent, earned, earned - spent, SavingsRate(earned, spent),
                          CategoryBreakdown(expenses), GroupSum(BySource(incomes)),
                          detected.value, ai, ai.recommendations))
  }

  /** The legacy fields repeat what the engine's report says: the same
      totals, rate and category breakdown whenever there is any record, and
      the same recommendations (none when there is no record). */
  lemma LegacyFieldsAgreeWithReport(expenses: seq<Expense>, incomes: seq<Income>)
    ensures GetInsights(expenses, incomes).Ok? ==>
      var r := GetInsights(expenses, incomes).value;
      && r.recommendations == r.aiInsights.recommendations
      && (|expenses| == 0 && |incomes| == 0 ==> r.recommendations == [] && r.aiInsights.health == None)
      && (|expenses| > 0 || |incomes| > 0 ==>
           && r.totalExpenses == r.aiInsights.health.value.totalExpenses
           && r.totalIncome == r.aiInsights.health.value.totalIncome
           && r.netBalance == r.aiInsights.health.value.netSavings
           && r.savingsRate == r.aiInsights.health.value.savingsRate
           && r.categoryBreakdown == r.aiInsights.patterns.value.categoryBreakdown)
  {
    var g := GetInsights(expenses, incomes);
    if g.Ok? {
      var r := g.value;
      var ai := GenerateInsights(expenses, incomes);
      assert r.aiInsights == ai && r.recommendations == ai.recommendations;
      assert r.totalExpenses == TotalExpenses(expenses) && r.totalIncome == TotalIncome(incomes);
      assert r.categoryBreakdown == CategoryBreakdown(expenses);
    }
  }

  /** The breakdowns partition the totals: one entry per category (source)
      in order of first appearance, each the sum of that category's
      (source's) amounts, adding up to the total. */
  lemma BreakdownsAddUpToTotals(expenses: seq<Expense>, incomes: seq<Income>)
    ensures GetInsights(expenses, incomes).Ok? ==>
      var r := GetInsights(expenses, incomes).value;
      && Keys(r.categoryBreakdown) == Distinct(Keys(ByCategory(expenses)))
      && Keys(r.incomeBreakdown) == Distinct(Keys(BySource(incomes)))
      && (forall k :: Lookup(r.categoryBreakdown, k, 0.0) == KeySum(ByCategory(expenses), k))
      && (forall k :: Lookup(r.incomeBreakdown, k, 0.0) == KeySum(BySource(incomes), k))
      && Sum(Values(r.categoryBreakdown)) == r.totalExpenses
      && Sum(Values(r.incomeBreakdown)) == r.totalIncome
      && r.netBalance == Sum(Values(r.incomeBreakdown)) - Sum(Values(r.categoryBreakdown))
  {
    BreakdownsPartitionSpending(expenses);
    GroupSumTotal(BySource(incomes));
    forall k ensures Lookup(GroupSum(BySource(incomes)), k, 0.0) == KeySum(BySource(incomes), k) {
      LookupGroupSum(BySource(incomes), k);
    }
  }

  // ---------------------------------------------------------------------
  // Dashboard endpoint

  datatype MonthRow = MonthRow(month: string, income: real, expenses: real, net: real)

  datatype Dashboard = Dashboard(
    totalIncome: real,
    totalExpenses: real,
    netBalance: real,
    monthlyData: seq<MonthRow>,
    savingsRate: real)

  /** The keys of `monthly_data`: income months first, then expense months,
      in order of first appearance. */
  function RecordMonths(expenses: seq<Expense>, incomes: seq<Income>): (ms: seq<string>)
    ensures NoDuplicates(ms)
  {
    Distinct(Keys(IncomesByMonth(incomes)) + Keys(ExpensesByMonth(expenses)))
  }

  /** The chart entry for `month`. Each field of a `monthly_data` entry is
      accumulated only by its own loop (`+= income.amount` over the
      incomes, `+= expense.amount` over the expenses), starting from 0, so
      it is that side's grouped dictionary read with default 0. */
  function Row(expenses: seq<Expense>, incomes: seq<Income>, month: string): MonthRow
  {
    var earned := Lookup(GroupSum(IncomesByMonth(incomes)), month, 0.0);
    var spent := Lookup(GroupSum(ExpensesByMonth(expenses)), month, 0.0);
    MonthRow(month, earned, spent, earned - spent)
  }

  /** A row's fields are the sums of the incomes and of the expenses dated
      in its month, 0 for a side with no record that month. */
  lemma RowHoldsMonthTotals(expenses: seq<Expense>, incomes: seq<Income>, month: string)
    ensures Row(expenses, incomes, month).income == KeySum(IncomesByMonth(incomes), month)
    ensures Row(expenses, incomes, month).expenses == KeySum(ExpensesByMonth(expenses), month)
  {
    LookupGroupSum(IncomesByMonth(incomes), month);
    LookupGroupSum(ExpensesByMonth(expenses), month);
  }

  function Rows(expenses: seq<Expense>, incomes: seq<Income>, months: seq<string>): (rows: seq<MonthRow>)
    ensures |rows| == |months|
  {
    seq(|months|, i requires 0 <= i < |months| => Row(expenses, incomes, months[i]))
  }

  /** The dashboard endpoint: `sorted(monthly_data.items())` orders the rows
      by month key, the keys being distinct. */
  function GetDashboard(expenses: seq<Expense>, incomes: seq<Income>): (d: Dashboard)
    ensures d.netBalance == d.totalIncome - d.totalExpenses
    ensures d.totalIncome == TotalIncome(incomes) && d.totalExpenses == TotalExpenses(expenses)
    ensures d.savingsRate == SavingsRate(d.totalIncome, d.totalExpenses)
    ensures Ascending(Months(d.monthlyData))
  {
    var earned := TotalIncome(incomes);
    var spent := TotalExpenses(expenses);
    var months := Sort(RecordMonths(expenses, incomes));
    SortAscending(RecordMonths(expenses, incomes));
    var rows := Rows(expenses, incomes, months);
    assert Months(rows) == months;
    Dashboard(earned, spent, earned - spent, rows, SavingsRate(earned, spent))
  }

  function Months(rows: seq<MonthRow>): (ms: seq<string>)
    ensures |ms| == |rows|
  {
    seq(|rows|, i requires 0 <= i < |rows| => rows[i].month)
  }

  function IncomeColumn(rows: seq<MonthRow>): (xs: seq<real>)
    ensures |xs| == |rows|
  {
    seq(|rows|, i requires 0 <= i < |rows| => rows[i].income)
  }

  function ExpenseColumn(rows: seq<MonthRow>): (xs: seq<real>)
    ensures |xs| == |rows|
  {
    seq(|rows|, i requires 0 <= i < |rows| => rows[i].expenses)
  }

  function NetColumn(rows: seq<MonthRow>): (xs: seq<real>)
    ensures |xs| == |rows|
  {
    seq(|rows|, i requires 0 <= i < |rows| => rows[i].net)
  }

  lemma AscendingHasNoDuplicates(s: seq<string>)
    requires Ascending(s)
    ensures NoDuplicates(s)
  {
    forall i, j | 0 <= i < j < |s| ensures s[i] != s[j] {
      LessIrreflexive(s[i]);
    }
  }

  lemma ColumnsCons(rows: seq<MonthRow>)
    requires |rows| > 0
    ensures IncomeColumn(rows) == [rows[0].income] + IncomeColumn(rows[1..])
    ensures ExpenseColumn(rows) == [rows[0].expenses] + ExpenseColumn(rows[1..])
    ensures NetColumn(rows) == [rows[0].net] + NetColumn(rows[1..])
  {
    assert IncomeColumn(rows) == [rows[0].income] + IncomeColumn(rows[1..]);
    assert ExpenseColumn(rows) == [rows[0].expenses] + ExpenseColumn(rows[1..]);
    assert NetColumn(rows) == [rows[0].net] + NetColumn(rows[1..]);
  }

  /** The columns of rows built from `months` add up to the sums of the
      per-month totals. */
  lemma {:induction false} ColumnSums(expenses: seq<Expense>, incomes: seq<Income>, months: seq<string>)
    ensures var rows := Rows(expenses, incomes, months);
      && Sum(IncomeColumn(rows)) == SumOfKeySums(months, IncomesByMonth(incomes))
      && Sum(ExpenseColumn(rows)) == SumOfKeySums(months, ExpensesByMonth(expenses))
      && Sum(NetColumn(rows)) == Sum(IncomeColumn(rows)) - Sum(ExpenseColumn(rows))
    decreases |months|
  {
    if |months| > 0 {
      var rows := Rows(expenses, incomes, months);
      var rest := Rows(expenses, incomes, months[1..]);
      assert rows[1..] == rest;
      RowHoldsMonthTotals(expenses, incomes, months[0]);
      ColumnSums(expenses, incomes, months[1..]);
      ColumnsCons(rows);
      SumCons(rows[0].income, IncomeColumn(rest));
      SumCons(rows[0].expenses, ExpenseColumn(rest));
      SumCons(rows[0].net, NetColumn(rest));
    }
  }

  /** Every record's month has exactly one row, and every row is the month
      of some record. */
  lemma DashboardCoversRecordMonths(expenses: seq<Expense>, incomes: seq<Income>)
    ensures var ms := Months(GetDashboard(expenses, incomes).monthlyData);
      && NoDuplicates(ms)
      && (forall m :: m in ms <==> (exists i :: 0 <= i < |incomes| && MonthKey(incomes[i].date) == m)
                                   || (exists i :: 0 <= i < |expenses| && MonthKey(expenses[i].date) == m))
  {
    var ms := Months(GetDashboard(expenses, incomes).monthlyData);
    AscendingHasNoDuplicates(ms);
    assert ms == Sort(RecordMonths(expenses, incomes));
    SortKeepsMembers(RecordMonths(expenses, incomes));
    IncomeMonthsAreKeys(incomes);
    ExpenseMonthsAreKeys(expenses);
  }

  /** The month keys of the income grouping are the months of the incomes. */
  lemma IncomeMonthsAreKeys(incomes: seq<Income>)
    ensures forall m :: m in Keys(IncomesByMonth(incomes))
                        <==> exists i :: 0 <= i < |incomes| && MonthKey(incomes[i].date) == m
  {
    var ki := Keys(IncomesByMonth(incomes));
    forall m ensures m in ki <==> exists i :: 0 <= i < |incomes| && MonthKey(incomes[i].date) == m {
      if m in ki {
        var i :| 0 <= i < |ki| && ki[i] == m;
        assert MonthKey(incomes[i].date) == m;
      }
      if exists i :: 0 <= i < |incomes| && MonthKey(incomes[i].date) == m {
        var i :| 0 <= i < |incomes| && MonthKey(incomes[i].date) == m;
        assert ki[i] == m;
      }
    }
  }

  /** The month keys of the expense grouping are the months of the expenses. */
  lemma ExpenseMonthsAreKeys(expenses: seq<Expense>)
    ensures forall m :: m in Keys(ExpensesByMonth(expenses))
                        <==> exists i :: 0 <= i < |expenses| && MonthKey(expenses[i].date) == m
  {
    var ke := Keys(ExpensesByMonth(expenses));
    forall m ensures m in ke <==> exists i :: 0 <= i < |expenses| && MonthKey(expenses[i].date) == m {
      if m in ke {
        var i :| 0 <= i < |ke| && ke[i] == m;
        assert MonthKey(expenses[i].date) == m;
      }
      if exists i :: 0 <= i < |expenses| && MonthKey(expenses[i].date) == m {
        var i :| 0 <= i < |expenses| && MonthKey(expenses[i].date) == m;
        assert ke[i] == m;
      }
    }
  }

  /** Each row holds the month's income and spending (the sums of the
      records whose month key is the row's) and their difference. */
  lemma DashboardRowsAreMonthTotals(expenses: seq<Expense>, incomes: seq<Income>)
    ensures var rows := GetDashboard(expenses, incomes).monthlyData;
      forall j :: 0 <= j < |rows| ==>
        && rows[j].income == KeySum(IncomesByMonth(incomes), rows[j].month)
        && rows[j].expenses == KeySum(ExpensesByMonth(expenses), rows[j].month)
        && rows[j].net == rows[j].income - rows[j].expenses
  {
    var rows := GetDashboard(expenses, incomes).monthlyData;
    var months := Sort(RecordMonths(expenses, incomes));
    assert rows == Rows(expenses, incomes, months);
    forall j | 0 <= j < |rows|
      ensures rows[j].income == KeySum(IncomesByMonth(incomes), rows[j].month)
      ensures rows[j].expenses == KeySum(ExpensesByMonth(expenses), rows[j].month)
    {
      assert rows[j] == Row(expenses, incomes, months[j]);
      RowHoldsMonthTotals(expenses, incomes, months[j]);
    }
  }

  /** The rows add up to the headline totals: income, spending and net. */
  lemma DashboardRowsAddUpToTotals(expenses: seq<Expense>, incomes: seq<Income>)
    ensures var d := GetDashboard(expenses, incomes);
      && Sum(IncomeColumn(d.monthlyData)) == d.totalIncome
      && Sum(ExpenseColumn(d.monthlyData)) == d.totalExpenses
      && Sum(NetColumn(d.monthlyData)) == d.netBalance
  {
    var d := GetDashboard(expenses, incomes);
    var ms := Months(d.monthlyData);
    var months := Sort(RecordMonths(expenses, incomes));
    assert d.monthlyData == Rows(expenses, incomes, months);
    assert ms == months;
    DashboardCoversRecordMonths(expenses, incomes);
    ColumnSums(expenses, incomes, months);
    var byIncome := IncomesByMonth(incomes);
    var byExpense := ExpensesByMonth(expenses);
    forall i | 0 <= i < |byIncome| ensures byIncome[i].0 in months {
      assert MonthKey(incomes[i].date) == byIncome[i].0;
    }
    forall i | 0 <= i < |byExpense| ensures byExpense[i].0 in months {
      assert MonthKey(expenses[i].date) == byExpense[i].0;
    }
    SumOfKeySumsCovers(months, byIncome);
    SumOfKeySumsCovers(months, byExpense);
  }

  /** For four-digit years the key order of the rows is the calendar order:
      every record counted in an earlier row is dated in an earlier month
      than every record counted in a later row. */
  lemma DashboardRowsAreChronological(expenses: seq<Expense>, incomes: seq<Income>, j: nat, k: nat,
                                      a: CalendarDate, b: CalendarDate)
    ensures var rows := GetDashboard(expenses, incomes).monthlyData;
      1000 <= a.year && 1000 <= b.year && j < k < |rows|
        && MonthKey(a) == rows[j].month && MonthKey(b) == rows[k].month
      ==> MonthBefore(a, b)
  {
    var rows := GetDashboard(expenses, incomes).monthlyData;
    if 1000 <= a.year && 1000 <= b.year && j < k < |rows|
       && MonthKey(a) == rows[j].month && MonthKey(b) == rows[k].month
    {
      var ms := Months(rows);
      assert Less(ms[j], ms[k]);
      MonthKeyOrder(a, b);
    }
  }
}
