/** The service-layer figures for the current calendar month: the income,
    spending and balance summary, the per-category spending, and the
    budget alerts derived from them. "Today" is a parameter. */
module Budget {
  import opened Aggregation
  import opened Records

  // ---------------------------------------------------------------------
  // The current-month window

  /** `date >= today.replace(day=1)`: on or after the first day of the
      current month (later months included). */
  predicate InWindow(d: Date, today: CalendarDate)
  {
    OnOrBefore(Date(today.year, today.month, 1), d)
  }

  /** The window holds exactly the dates that do not fall in an earlier
      calendar month than today. */
  lemma InWindowIsNotAnEarlierMonth(d: CalendarDate, today: CalendarDate)
    ensures InWindow(d, today) <==> !MonthBefore(d, today)
  {
  }

  function ExpensesInWindow(expenses: seq<Expense>, today: CalendarDate): (r: seq<Expense>)
    ensures |r| <= |expenses|
    ensures forall e :: e in r <==> e in expenses && InWindow(e.date, today)
  {
    if |expenses| == 0 then []
    else
      var init, last := expenses[..|expenses| - 1], expenses[|expenses| - 1];
      assert forall e :: e in expenses <==> e in init || e == last;
      ExpensesInWindow(init, today) + (if InWindow(last.date, today) then [last] else [])
  }

  function IncomesInWindow(incomes: seq<Income>, today: CalendarDate): (r: seq<Income>)
    ensures |r| <= |incomes|
    ensures forall x :: x in r <==> x in incomes && InWindow(x.date, today)
  {
    if |incomes| == 0 then []
    else
      var init, last := incomes[..|incomes| - 1], incomes[|incomes| - 1];
      assert forall x :: x in incomes <==> x in init || x == last;
      IncomesInWindow(init, today) + (if InWindow(last.date, today) then [last] else [])
  }

  /** The window keeps every copy of an in-window expense and drops every
      other expense. */
  lemma {:induction false} ExpensesInWindowCounts(expenses: seq<Expense>, today: CalendarDate)
    ensures forall e :: multiset(ExpensesInWindow(expenses, today))[e]
                        == if InWindow(e.date, today) then multiset(expenses)[e] else 0
    decreases |expenses|
  {
    if |expenses| > 0 {
      var init, last := expenses[..|expenses| - 1], expenses[|expenses| - 1];
      assert expenses == init + [last];
      ExpensesInWindowCounts(init, today);
    }
  }

  /** The window keeps every copy of an in-window income and drops every
      other income. */
  lemma {:induction false} IncomesInWindowCounts(incomes: seq<Income>, today: CalendarDate)
    ensures forall x :: multiset(IncomesInWindow(incomes, today))[x]
                        == if InWindow(x.date, today) then multiset(incomes)[x] else 0
    decreases |incomes|
  {
    if |incomes| > 0 {
      var init, last := incomes[..|incomes| - 1], incomes[|incomes| - 1];
      assert incomes == init + [last];
      IncomesInWindowCounts(init, today);
    }
  }

  /** What a record of `amount` dated `d` contributes to the month's
      figures: its amount when dated in the window, nothing otherwise. */
  function Contribution(amount: real, d: Date, today: CalendarDate): real
  {
    if InWindow(d, today) then amount else 0.0
  }

  /** Each expense's contribution to the month's spending. */
  function WindowedExpenseAmounts(expenses: seq<Expense>, today: CalendarDate): seq<real>
  {
    seq(|expenses|, i requires 0 <= i < |expenses| => Contribution(expenses[i].amount, expenses[i].date, today))
  }

  /** Each income's contribution to the month's income. */
  function WindowedIncomeAmounts(incomes: seq<Income>, today: CalendarDate): seq<real>
  {
    seq(|incomes|, i requires 0 <= i < |incomes| => Contribution(incomes[i].amount, incomes[i].date, today))
  }

  lemma {:induction false} WindowedExpenseSum(expenses: seq<Expense>, today: CalendarDate)
    ensures TotalExpenses(ExpensesInWindow(expenses, today)) == Sum(WindowedExpenseAmounts(expenses, today))
    decreases |expenses|
  {
    if |expenses| > 0 {
      var n := |expenses| - 1;
      var init, last := expenses[..n], expenses[n];
      var ws := WindowedExpenseAmounts(expenses, today);
      assert expenses == init + [last];
      WindowedExpenseSum(init, today);
      ExpenseWindowStep(init, last, today);
      assert ws[..n] == WindowedExpenseAmounts(init, today);
    }
  }

  /** A record added at the end adds its amount to the window's total
      exactly when it is dated in the window. */
  lemma ExpenseWindowStep(init: seq<Expense>, last: Expense, today: CalendarDate)
    ensures TotalExpenses(ExpensesInWindow(init + [last], today))
            == TotalExpenses(ExpensesInWindow(init, today)) + Contribution(last.amount, last.date, today)
  {
    var w := ExpensesInWindow(init, today);
    assert (init + [last])[..|init|] == init;
    if InWindow(last.date, today) {
      assert ExpensesInWindow(init + [last], today) == w + [last];
      assert ExpenseAmounts(w + [last]) == ExpenseAmounts(w) + [last.amount];
      SumConcat(ExpenseAmounts(w), [last.amount]);
      assert Sum([last.amount]) == Sum([]) + last.amount;
    } else {
      assert ExpensesInWindow(init + [last], today) == w;
    }
  }

  lemma {:induction false} WindowedIncomeSum(incomes: seq<Income>, today: CalendarDate)
    ensures TotalIncome(IncomesInWindow(incomes, today)) == Sum(WindowedIncomeAmounts(incomes, today))
    decreases |incomes|
  {
    if |incomes| > 0 {
      var n := |incomes| - 1;
      var init, last := incomes[..n], incomes[n];
      var ws := WindowedIncomeAmounts(incomes, today);
      assert incomes == init + [last];
      WindowedIncomeSum(init, today);
      IncomeWindowStep(init, last, today);
      assert ws[..n] == WindowedIncomeAmounts(init, today);
    }
  }

  /** A record added at the end adds its amount to the window's total
      exactly when it is dated in the window. */
  lemma IncomeWindowStep(init: seq<Income>, last: Income, today: CalendarDate)
    ensures TotalIncome(IncomesInWindow(init + [last], today))
            == TotalIncome(IncomesInWindow(init, today)) + Contribution(last.amount, last.date, today)
  {
    var w := IncomesInWindow(init, today);
    assert (init + [last])[..|init|] == init;
    if InWindow(last.date, today) {
      assert IncomesInWindow(init + [last], today) == w + [last];
      assert IncomeAmounts(w + [last]) == IncomeAmounts(w) + [last.amount];
      SumConcat(IncomeAmounts(w), [last.amount]);
      assert Sum([last.amount]) == Sum([]) + last.amount;
    } else {
      assert IncomesInWindow(init + [last], today) == w;
    }
  }


  // ---------------------------------------------------------------------
  // Monthly summary

  datatype Summary = Summary(expenses: real, income: real, balance: real)

  /** `get_monthly_summary`: SQL `SUM` over the window, a NULL (no rows)
      read as 0 on either side, and the balance between them. */
  function MonthlySummary(expenses: seq<Expense>, incomes: seq<Income>, today: CalendarDate): (s: Summary)
    ensures s.expenses == Sum(WindowedExpenseAmounts(expenses, today))
    ensures s.income == Sum(WindowedIncomeAmounts(incomes, today))
    ensures s.balance == s.income - s.expenses
    ensures |ExpensesInWindow(expenses, today)| == 0 ==> s.expenses == 0.0
    ensures |IncomesInWindow(incomes, today)| == 0 ==> s.income == 0.0
  {
    WindowedExpenseSum(expenses, today);
    WindowedIncomeSum(incomes, today);
    var spent := TotalExpenses(ExpensesInWindow(expenses, today));
    var earned := TotalIncome(IncomesInWindow(incomes, today));
    Summary(spent, earned, earned - spent)
  }

  lemma {:induction false} WindowKeepsCurrentExpenses(expenses: seq<Expense>, today: CalendarDate)
    requires forall i :: 0 <= i < |expenses| ==> InWindow(expenses[i].date, today)
    ensures ExpensesInWindow(expenses, today) == expenses
    decreases |expenses|
  {
    if |expenses| > 0 {
      var init, last := expenses[..|expenses| - 1], expenses[|expenses| - 1];
      assert expenses == init + [last];
      WindowKeepsCurrentExpenses(init, today);
      assert InWindow(last.date, today);
    }
  }

  lemma {:induction false} WindowKeepsCurrentIncomes(incomes: seq<Income>, today: CalendarDate)
    requires forall i :: 0 <= i < |incomes| ==> InWindow(incomes[i].date, today)
    ensures IncomesInWindow(incomes, today) == incomes
    decreases |incomes|
  {
    if |incomes| > 0 {
      var init, last := incomes[..|incomes| - 1], incomes[|incomes| - 1];
      assert incomes == init + [last];
      WindowKeepsCurrentIncomes(init, today);
      assert InWindow(last.date, today);
    }
  }

  /** When every record is dated in the window, the summary is the overall
      totals. */
  lemma SummaryOfCurrentRecords(expenses: seq<Expense>, incomes: seq<Income>, today: CalendarDate)
    requires forall i :: 0 <= i < |expenses| ==> InWindow(expenses[i].date, today)
    requires forall i :: 0 <= i < |incomes| ==> InWindow(incomes[i].date, today)
    ensures MonthlySummary(expenses, incomes, today)
            == Summary(TotalExpenses(expenses), TotalIncome(incomes), TotalIncome(incomes) - TotalExpenses(expenses))
  {
    WindowKeepsCurrentExpenses(expenses, today);
    WindowKeepsCurrentIncomes(incomes, today);
  }

  /** An expense dated in an earlier month changes nothing in the summary. */
  lemma EarlierExpenseDoesNotCount(expenses: seq<Expense>, incomes: seq<Income>, today: CalendarDate, e: Expense)
    requires MonthBefore(e.date, today)
    ensures MonthlySummary(expenses + [e], incomes, today) == MonthlySummary(expenses, incomes, today)
  {
    assert (expenses + [e])[..|expenses|] == expenses;
    assert !InWindow(e.date, today);
    assert ExpensesInWindow(expenses + [e], today) == ExpensesInWindow(expenses, today);
  }

  /** An income dated in an earlier month changes nothing in the summary. */
  lemma EarlierIncomeDoesNotCount(expenses: seq<Expense>, incomes: seq<Income>, today: CalendarDate, x: Income)
    requires MonthBefore(x.date, today)
    ensures MonthlySummary(expenses, incomes + [x], today) == MonthlySummary(expenses, incomes, today)
  {
    assert (incomes + [x])[..|incomes|] == incomes;
    assert !InWindow(x.date, today);
    assert IncomesInWindow(incomes + [x], today) == IncomesInWindow(incomes, today);
  }

  /** An expense dated in the window adds its amount to the spending and
      takes it off the balance. */
  lemma CurrentExpenseCounts(expenses: seq<Expense>, incomes: seq<Income>, today: CalendarDate, e: Expense)
    requires InWindow(e.date, today)
    ensures var before := MonthlySummary(expenses, incomes, today);
            var after := MonthlySummary(expenses + [e], incomes, today);
      && after.expenses == before.expenses + e.amount
      && after.income == before.income
      && after.balance == before.balance - e.amount
  {
    var window := ExpensesInWindow(expenses, today);
    assert (expenses + [e])[..|expenses|] == expenses;
    assert ExpensesInWindow(expenses + [e], today) == window + [e];
    assert ExpenseAmounts(window + [e]) == ExpenseAmounts(window) + [e.amount];
    SumConcat(ExpenseAmounts(window), [e.amount]);
    assert Sum([e.amount]) == Sum([]) + e.amount;
  }

  /** An income dated in the window adds its amount to the income and to
      the balance. */
  lemma CurrentIncomeCounts(expenses: seq<Expense>, incomes: seq<Income>, today: CalendarDate, x: Income)
    requires InWindow(x.date, today)
    ensures var before := MonthlySummary(expenses, incomes, today);
            var after := MonthlySummary(expenses, incomes + [x], today);
      && after.income == before.income + x.amount
      && after.expenses == before.expenses
      && after.balance == before.balance + x.amount
  {
    var window := IncomesInWindow(incomes, today);
    assert (incomes + [x])[..|incomes|] == incomes;
    assert IncomesInWindow(incomes + [x], today) == window + [x];
    assert IncomeAmounts(window + [x]) == IncomeAmounts(window) + [x.amount];
    SumConcat(IncomeAmounts(window), [x.amount]);
    assert Sum([x.amount]) == Sum([]) + x.amount;
  }

  // ---------------------------------------------------------------------
  // Category breakdown

  /** `get_category_breakdown`: in-window spending grouped by category. */
  function MonthCategoryBreakdown(expenses: seq<Expense>, today: CalendarDate): seq<(Key, real)>
  {
    GroupSum(ByCategory(ExpensesInWindow(expenses, today)))
  }

  /** One entry per category with an in-window expense, holding that
      category's in-window sum; the entries add up to the summary's
      spending. */
  lemma BreakdownIsWindowSpendingByCategory(expenses: seq<Expense>, incomes: seq<Income>, today: CalendarDate)
    ensures var b := MonthCategoryBreakdown(expenses, today);
      && NoDuplicates(Keys(b))
      && (forall c :: c in Keys(b) <==> exists e :: e in expenses && InWindow(e.date, today) && e.category == c)
      && (forall j :: 0 <= j < |b| ==> b[j].1 == KeySum(ByCategory(ExpensesInWindow(expenses, today)), b[j].0))
      && Sum(Values(b)) == MonthlySummary(expenses, incomes, today).expenses
  {
    var window := ExpensesInWindow(expenses, today);
    var items := ByCategory(window);
    GroupSumTotal(items);
    forall c ensures c in Keys(items) <==> exists e :: e in expenses && InWindow(e.date, today) && e.category == c {
      if c in Keys(items) {
        var i :| 0 <= i < |items| && Keys(items)[i] == c;
        assert window[i] in window;
      }
      if exists e :: e in expenses && InWindow(e.date, today) && e.category == c {
        var e :| e in expenses && InWindow(e.date, today) && e.category == c;
        var i :| 0 <= i < |window| && window[i] == e;
        assert Keys(items)[i] == c;
      }
    }
  }

  // ---------------------------------------------------------------------
  // Budget alerts

  datatype Alert =
    | Overspending(amount: real)
    | CategoryShare(category: string, percentage: real)

  /** `cat['amount'] / total * 100`. */
  function SharePercentage(amount: real, total: real): real
    requires total != 0.0
  {
    amount / total * 100.0
  }

  function AlertFor(entry: (Key, real), total: real): Alert
    requires total != 0.0
  {
    CategoryShare(entry.0, SharePercentage(entry.1, total))
  }

  /** The category alerts for a positive spending total, in list order. */
  function ShareAlerts(categories: seq<(Key, real)>, total: real): (r: seq<Alert>)
    requires total > 0.0
    ensures |r| <= |categories|
    ensures forall i :: 0 <= i < |r| ==> r[i].CategoryShare? && r[i].percentage > 40.0
  {
    if |categories| == 0 then []
    else
      var init, last := categories[..|categories| - 1], categories[|categories| - 1];
      ShareAlerts(init, total) + (if SharePercentage(last.1, total) > 40.0 then [AlertFor(last, total)] else [])
  }

  /** `get_budget_alerts` on a summary and a category list. */
  function Alerts(summary: Summary, categories: seq<(Key, real)>): (r: seq<Alert>)
    ensures (|r| > 0 && r[0].Overspending?) <==> summary.balance < 0.0
    ensures forall i :: 0 <= i < |r| && r[i].Overspending? ==> i == 0 && r[i].amount == -summary.balance && r[i].amount > 0.0
    ensures summary.expenses <= 0.0 ==> forall i :: 0 <= i < |r| ==> r[i].Overspending?
  {
    var overspent := if summary.balance < 0.0 then [Overspending(-summary.balance)] else [];
    var shares := if summary.expenses > 0.0 then ShareAlerts(categories, summary.expenses) else [];
    overspent + shares
  }

  /** The alerts for the current month's records. */
  function BudgetAlerts(expenses: seq<Expense>, incomes: seq<Income>, today: CalendarDate): seq<Alert>
  {
    Alerts(MonthlySummary(expenses, incomes, today), MonthCategoryBreakdown(expenses, today))
  }

  /** The category alerts after any overspending alert. */
  function CategoryAlerts(alerts: seq<Alert>): seq<Alert>
  {
    if |alerts| > 0 && alerts[0].Overspending? then alerts[1..] else alerts
  }

  /** After the optional overspending alert come exactly the share alerts,
      and none at all when the month's spending is not positive. */
  lemma CategoryAlertsFollowOverspending(summary: Summary, categories: seq<(Key, real)>)
    ensures CategoryAlerts(Alerts(summary, categories))
            == if summary.expenses > 0.0 then ShareAlerts(categories, summary.expenses) else []
  {
    var r := Alerts(summary, categories);
    if summary.balance < 0.0 {
      assert r[1..] == if summary.expenses > 0.0 then ShareAlerts(categories, summary.expenses) else [];
    }
  }

  /** Every category alert is the alert of a listed category, and every
      listed category whose share is above 40% is alerted. */
  lemma {:induction false} ShareAlertsExactlyAboveForty(categories: seq<(Key, real)>, total: real)
    requires total > 0.0
    ensures forall a :: a in ShareAlerts(categories, total) ==>
      exists j :: 0 <= j < |categories| && a == AlertFor(categories[j], total)
    ensures forall j :: 0 <= j < |categories| && SharePercentage(categories[j].1, total) > 40.0 ==>
      AlertFor(categories[j], total) in ShareAlerts(categories, total)
    decreases |categories|
  {
    if |categories| > 0 {
      var n := |categories| - 1;
      var init, last := categories[..n], categories[n];
      ShareAlertsExactlyAboveForty(init, total);
      var r0 := ShareAlerts(init, total);
      var r := ShareAlerts(categories, total);
      assert r == r0 + (if SharePercentage(last.1, total) > 40.0 then [AlertFor(last, total)] else []);
      forall a | a in r ensures exists j :: 0 <= j < |categories| && a == AlertFor(categories[j], total) {
        if a in r0 {
          var j :| 0 <= j < |init| && a == AlertFor(init[j], total);
          assert init[j] == categories[j];
        } else {
          assert a == AlertFor(categories[n], total);
        }
      }
      forall j | 0 <= j < |categories| && SharePercentage(categories[j].1, total) > 40.0
        ensures AlertFor(categories[j], total) in r
      {
        if j < n {
          assert categories[j] == init[j];
        }
      }
    }
  }

  /** The position in `categories` of the category named `c`. */
  function PositionOf(categories: seq<(Key, real)>, c: Key): (p: nat)
    requires c in Keys(categories)
    ensures p < |categories| && categories[p].0 == c
  {
    if categories[|categories| - 1].0 == c then |categories| - 1
    else
      assert Keys(categories[..|categories| - 1]) == Keys(categories)[..|categories| - 1];
      PositionOf(categories[..|categories| - 1], c)
  }

  /** With distinct category names, the alerts keep the list's order. */
  lemma {:induction false} ShareAlertsKeepListOrder(categories: seq<(Key, real)>, total: real)
    requires total > 0.0
    requires NoDuplicates(Keys(categories))
    ensures forall i :: 0 <= i < |ShareAlerts(categories, total)| ==>
      ShareAlerts(categories, total)[i].category in Keys(categories)
    ensures forall i, k :: 0 <= i < k < |ShareAlerts(categories, total)| ==>
      PositionOf(categories, ShareAlerts(categories, total)[i].category)
        < PositionOf(categories, ShareAlerts(categories, total)[k].category)
    decreases |categories|
  {
    if |categories| > 0 {
      var n := |categories| - 1;
      var init, last := categories[..n], categories[n];
      assert Keys(init) == Keys(categories)[..n];
      var r0 := ShareAlerts(init, total);
      var r := ShareAlerts(categories, total);
      ShareAlertsKeepListOrder(init, total);
      assert r == r0 + (if SharePercentage(last.1, total) > 40.0 then [AlertFor(last, total)] else []);
      forall i | 0 <= i < |r0|
        ensures r[i] == r0[i] && r0[i].category in Keys(init)
        ensures PositionOf(categories, r[i].category) == PositionOf(init, r0[i].category) < n
      {
        PositionInPrefix(categories, n, r0[i].category);
      }
      if |r| > |r0| {
        assert r[|r0|].category == last.0;
        PositionUnique(categories, last.0, n);
      }
    }
  }

  /** A category of a prefix keeps its position in the whole list. */
  lemma PositionInPrefix(categories: seq<(Key, real)>, n: nat, c: Key)
    requires NoDuplicates(Keys(categories))
    requires n <= |categories| && c in Keys(categories[..n])
    ensures c in Keys(categories)
    ensures PositionOf(categories, c) == PositionOf(categories[..n], c) < n
  {
    var p := PositionOf(categories[..n], c);
    assert categories[p] == categories[..n][p];
    PositionUnique(categories, c, p);
  }

  lemma PositionUnique(categories: seq<(Key, real)>, c: Key, p: nat)
    requires NoDuplicates(Keys(categories))
    requires p < |categories| && categories[p].0 == c
    ensures c in Keys(categories) && PositionOf(categories, c) == p
  {
    assert Keys(categories)[p] == c;
  }

  /** The number of category alerts is the number of categories above 40%
      of the total. */
  lemma {:induction false} ShareAlertsCount(categories: seq<(Key, real)>, total: real)
    requires total > 0.0
    ensures |ShareAlerts(categories, total)| == CountAbove(Values(categories), 0.4 * total)
    decreases |categories|
  {
    if |categories| > 0 {
      var n := |categories| - 1;
      ShareAlertsCount(categories[..n], total);
      assert Values(categories[..n]) == Values(categories)[..n];
      AboveFortyPercent(categories[n].1, total);
    }
  }

  lemma AboveFortyPercent(amount: real, total: real)
    requires total > 0.0
    ensures SharePercentage(amount, total) > 40.0 <==> amount > 0.4 * total
  {
    assert amount / total * total == amount;
    if amount > 0.4 * total {
      assert (amount / total - 0.4) * total > 0.0;
      ProductSign(amount / total - 0.4, total);
    } else {
      assert (amount / total - 0.4) * total <= 0.0;
      ProductSign(amount / total - 0.4, total);
    }
  }

  lemma ProductSign(a: real, b: real)
    requires b > 0.0
    ensures a * b > 0.0 <==> a > 0.0
  {
    if a > 0.0 {
      assert a * b > 0.0 * b;
    } else {
      assert a * b <= 0.0 * b;
    }
  }

  /** With non-negative amounts at most two categories can each exceed 40%
      of the month's spending. */
  lemma AtMostTwoCategoryAlerts(expenses: seq<Expense>, incomes: seq<Income>, today: CalendarDate)
    requires forall i :: 0 <= i < |expenses| ==> expenses[i].amount >= 0.0
    ensures |CategoryAlerts(BudgetAlerts(expenses, incomes, today))| <= 2
  {
    var s := MonthlySummary(expenses, incomes, today);
    var b := MonthCategoryBreakdown(expenses, today);
    assert BudgetAlerts(expenses, incomes, today) == Alerts(s, b);
    CategoryAlertsFollowOverspending(s, b);
    if s.expenses > 0.0 {
      ShareAlertsAtMostTwo(b, s.expenses, expenses, today);
    }
  }

  lemma ShareAlertsAtMostTwo(b: seq<(Key, real)>, total: real, expenses: seq<Expense>, today: CalendarDate)
    requires forall i :: 0 <= i < |expenses| ==> expenses[i].amount >= 0.0
    requires b == MonthCategoryBreakdown(expenses, today)
    requires total > 0.0 && total == TotalExpenses(ExpensesInWindow(expenses, today))
    ensures |ShareAlerts(b, total)| <= 2
  {
    GroupSumTotal(ByCategory(ExpensesInWindow(expenses, today)));
    BreakdownNonNegative(expenses, today);
    ShareAlertsCount(b, total);
    FewShares(Values(b), total);
  }

  lemma BreakdownNonNegative(expenses: seq<Expense>, today: CalendarDate)
    requires forall i :: 0 <= i < |expenses| ==> expenses[i].amount >= 0.0
    ensures forall j :: 0 <= j < |Values(MonthCategoryBreakdown(expenses, today))| ==>
      Values(MonthCategoryBreakdown(expenses, today))[j] >= 0.0
  {
    var window := ExpensesInWindow(expenses, today);
    var items := ByCategory(window);
    var b := GroupSum(items);
    forall i | 0 <= i < |items| ensures items[i].1 >= 0.0 {
      assert window[i] in expenses;
    }
    forall j | 0 <= j < |b| ensures b[j].1 >= 0.0 {
      KeySumNonNegative(items, b[j].0);
    }
  }

  /** Non-negative parts of a positive total: at most two exceed 40% of it. */
  lemma FewShares(xs: seq<real>, total: real)
    requires total > 0.0 && Sum(xs) == total
    requires forall i :: 0 <= i < |xs| ==> xs[i] >= 0.0
    ensures CountAbove(xs, 0.4 * total) <= 2
  {
    SumBoundsCountAbove(xs, 0.4 * total);
  }

  /** A spending month with a single category: it is alerted at 100%, after
      the overspending alert when income falls short. */
  lemma SingleCategoryMonth()
    ensures Alerts(Summary(80.0, 50.0, -30.0), [("Food", 80.0)])
            == [Overspending(30.0), CategoryShare("Food", 100.0)]
  {
    assert [("Food", 80.0)][..0] == [];
  }
}
