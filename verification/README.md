# Personal finance analytics, modelled in Dafny

The backend of this personal-finance tracker stores expenses (category,
amount, description, date) and incomes (source, amount, description, date,
recurring flag). Its analytics turn those two lists into derived figures.
This project models those analytics as pure functions over immutable
records:

- **The insight engine** (`generate_ai_insights`). It computes:
  - totals, the savings rate and a 0–100 financial score;
  - per-category and per-month ("YYYY-MM") sums;
  - the three largest categories;
  - an ordered list of rule-fired recommendations;
  - behavioural flags;
  - a one-step trend prediction from the last two month buckets.
- **The insights endpoint** (`get_insights`). It returns the legacy totals and the category and income breakdowns. It also runs the anomaly detector, which flags expenses above twice their category's mean.
- **The dashboard endpoint** (`get_dashboard`). It returns the totals and one row per month (income, spending, net), in month-key order.
- **The service layer** (`ExpenseService`). It computes the current month's summary, the current month's spending per category, and the budget alerts built from them.

Conventions:

- Amounts are exact `real`s. Negative amounts are allowed, as in the source.
- Python dictionaries are insertion-ordered sequences of (key, value) pairs.
- Month keys are real strings, ordered as Python orders `str`.
- "Today" is a parameter.
- The one run-time failure the analytics can raise is modelled as a `Result`: a division by a zero category mean in the anomaly report.

Modules:

| module | file | content |
|---|---|---|
| `Outcomes` | outcomes.dfy | `Option` and `Result` |
| `StringOrder` | string_order.dfy | Python string order and key sorting |
| `Aggregation` | aggregation.dfy | sums, `defaultdict` grouping, `dict.get` |
| `Ranking` | ranking.dfy | the stable descending sort and the top-n cut |
| `Records` | records.dfy | the records, calendar dates and month keys |
| `InsightEngine` | insight_engine.dfy | `generate_ai_insights` |
| `Anomalies` | anomalies.dfy | the anomaly detector |
| `Reports` | reports.dfy | the insights and dashboard responses |
| `Budget` | budget.dfy | monthly summary, category breakdown and budget alerts |

## Model

| member | source | states |
|---|---|---|
| `Aggregation.AddToUpdatesOneEntry` | backend/routes.py:205-211 | `d[k] += v` on a `defaultdict(float)` adds `v` to the entry for `k`, leaves every other entry unchanged, and appends a new key at the end |
| `Aggregation.GroupSum` | backend/routes.py:205-211 | filling a `defaultdict(float)` yields one entry per key present, in order of first appearance, each holding the sum of that key's amounts |
| `Aggregation.GroupSumTotal` | backend/routes.py:205-211 | the grouped values add up to the sum of all amounts |
| `Aggregation.LookupGroupSum` | backend/routes.py:249-251 | `dict.get(k, 0)` on a grouped dictionary is the key's total, and 0 for a key never seen |
| `Aggregation.DistinctCardinality` | backend/routes.py:288 | the number of distinct keys in first-appearance order equals the size of their set |
| `StringOrder.LessTransitive` | backend/routes.py:389 | Python's string order is transitive |
| `StringOrder.LessTotal` | backend/routes.py:389 | any two distinct strings are comparable |
| `StringOrder.Sort` | backend/routes.py:389 | `sorted` returns a permutation of the keys |
| `StringOrder.SortAscending` | backend/routes.py:389 | sorting distinct keys gives a strictly ascending sequence |
| `Ranking.SortDescIsStable` | backend/routes.py:216 | `sorted(..., key=value, reverse=True)` is non-increasing by value and keeps entries of equal value in their original order |
| `Ranking.Top` | backend/routes.py:216 | `[:3]` after the sort keeps min(3, #categories) entries, all taken from the breakdown |
| `Ranking.TopIsOrderedAndStable` | backend/routes.py:216 | the top entries come largest first, and tied entries are the earliest ones, in their original order |
| `Ranking.TopDominatesRest` | backend/routes.py:216 | every category left out of the top is no larger than any category kept |
| `Records.DecimalOrder` | backend/routes.py:210 | decimal year numerals of equal length compare as strings the way the numbers compare |
| `Records.MonthKeyOrder` | backend/routes.py:210 | for four-digit years, `f"{year}-{month:02d}"` keys compare as strings exactly as the calendar months compare, and are equal exactly for the same month |
| `InsightEngine.SavingsRate` | backend/routes.py:193 | the rate is 0 without positive income; otherwise rate × income = net × 100, and the rate is non-negative exactly when spending does not exceed income |
| `InsightEngine.FinancialScore` | backend/routes.py:201 | the score lies in [0, 100]: rate + 50 inside the band, 0 below it, 100 above it |
| `InsightEngine.Health` | backend/routes.py:189-202 | the health section holds both totals, net savings = income − expenses, the savings rate of those totals, and the score `min(100, max(0, rate + 50))` of that rate, which lies in [0, 100] |
| `InsightEngine.BreakdownsPartitionSpending` | backend/routes.py:205-215 | the category and month breakdowns each have one key per category (month) present, each holding that key's sum, and each adds up to total expenses |
| `InsightEngine.Patterns` | backend/routes.py:213-217 | breakdown keys are duplicate-free; the top list has min(3, #categories) entries drawn from the category breakdown |
| `InsightEngine.SavingsTier` | backend/routes.py:222-246 | critical iff rate < 10 (saving 30% of spending), high iff 10 ≤ rate < 20 (10%), low iff rate ≥ 20 (nothing); never medium |
| `InsightEngine.Recommendations` | backend/routes.py:219-267 | the savings tier comes first; the Food rule is present iff Food > 25% of income; the Entertainment rule iff Entertainment > 15% of income; both are medium, Food before Entertainment, and the length counts the rules that fired |
| `InsightEngine.BeyondOneDeviationIsAboveMeanPlusStdev` | backend/routes.py:274-277 | the square-root-free test agrees with `amount > mean + stdev` for the non-negative root of the sample variance |
| `InsightEngine.BehaviouralInsights` | backend/routes.py:269-294 | the impulse flag (average, confidence 85) comes first and is present iff there are more than five expenses and more than 30% of them lie above mean + stdev; the limited-categories flag (78) comes last and is present iff fewer than 4 categories cover more than 10 expenses |
| `InsightEngine.CategoryCountIsBreakdownSize` | backend/routes.py:288 | the distinct-category count equals the number of category-breakdown entries |
| `InsightEngine.Predict` | backend/routes.py:298-308 | a prediction exists iff there are at least two buckets; trend = last − second last; the prediction continues that step; the direction is increasing iff the trend is positive |
| `InsightEngine.FlatTrendIsDecreasing` | backend/routes.py:307 | a zero trend is reported as decreasing |
| `InsightEngine.DistinctOfNonDecreasingIsAscending` | backend/routes.py:206-211 | first-appearance keys of a non-decreasing key sequence are strictly ascending |
| `InsightEngine.TrendBucketsChronologicalWhenSorted` | backend/routes.py:206-211 | with date-ordered expenses and four-digit years, the month buckets are in ascending key order |
| `InsightEngine.TrendFollowsInsertionOrder` | backend/routes.py:300-303 | the "last two buckets" are the last two inserted: June recorded before May gives an increasing trend though spending fell |
| `InsightEngine.GenerateInsights` | backend/routes.py:176-310 | no records give the empty report; otherwise every section is computed from the full lists, with Food and Entertainment read from the category breakdown |
| `InsightEngine.ReportShape` | backend/routes.py:176-310 | a non-empty report has exactly one non-medium recommendation, first; a score in [0, 100]; a prediction iff at least two distinct months |
| `Anomalies.OfCategory` | backend/routes.py:338 | the category filter keeps exactly the expenses of that category |
| `Anomalies.OfCategoryCounts` | backend/routes.py:338-341 | the filter keeps every copy: an expense of the category occurs in the result as often as in the input, so duplicates count in `len` and in the mean |
| `Anomalies.ScanReportsFlagged` | backend/routes.py:339-348 | scanning a category with more than one expense fails iff it meets a flagged expense while the mean is 0; otherwise it reports exactly the flagged expenses, in order |
| `Anomalies.DetectionFailsOnlyOnZeroMean` | backend/routes.py:336-348 | detection fails exactly when some flagged expense's category mean is 0 |
| `Anomalies.AnomaliesOfEachCategory` | backend/routes.py:336-348 | for every category, the anomalies carrying it are exactly that category's flagged expenses, in their original order |
| `Anomalies.SingleExpenseCategoryNeverFlagged` | backend/routes.py:339 | a category with exactly one expense yields no anomaly |
| `Anomalies.ReportedIffFlagged` | backend/routes.py:339-348 | an expense is reported (an anomaly with its category and amount) iff its category has more than one expense and its amount exceeds twice the category mean |
| `Anomalies.NonNegativeAmountsNeverFail` | backend/routes.py:341-347 | with non-negative amounts the detector never divides by zero |
| `Anomalies.CancellingAmountsFail` | backend/routes.py:341-347 | Food amounts 5 and −5 give mean 0, and reporting the 5 divides by zero |
| `Anomalies.OnlyTheLargeFoodExpenseIsReported` | backend/routes.py:336-348 | Food amounts 50, 45 and 500 report only the 500, with mean 595/3 |
| `Reports.GetInsights` | backend/routes.py:312-363 | the response is an error iff some flagged expense has a zero category mean; otherwise it carries the detector's anomalies and the engine's report |
| `Reports.LegacyFieldsAgreeWithReport` | backend/routes.py:319-360 | the legacy totals, net, rate, category breakdown and recommendations equal the engine's; no records give no recommendations |
| `Reports.BreakdownsAddUpToTotals` | backend/routes.py:322-333 | category and income breakdowns have one key per category (source); `get(k, 0)` on either is the sum of that key's amounts; they add up to the totals whose difference is the net balance |
| `Reports.GetDashboard` | backend/routes.py:366-402 | net = income − expenses over all records, the rate of those totals, and rows in strictly ascending month-key order |
| `Reports.DashboardCoversRecordMonths` | backend/routes.py:377-389 | every month in which some record falls has exactly one row, and every row is such a month |
| `Reports.RowHoldsMonthTotals` | backend/routes.py:377-385 | a chart entry's income and expenses, read from the month's accumulated fields (0 when a side has no record that month), are the sums of the incomes and of the expenses dated in that month |
| `Reports.DashboardRowsAreMonthTotals` | backend/routes.py:377-395 | each row holds the sums of the incomes and of the expenses dated in its month, and net = income − expenses |
| `Reports.ColumnSums` | backend/routes.py:388-395 | the income and expense columns add up to the per-month sums, and the net column to their difference |
| `Reports.DashboardRowsAddUpToTotals` | backend/routes.py:372-402 | the rows' incomes, expenses and nets add up to total income, total expenses and the net balance |
| `Reports.DashboardRowsAreChronological` | backend/routes.py:389 | for four-digit years, records counted in an earlier row are dated in an earlier calendar month than those in a later row |
| `Budget.InWindowIsNotAnEarlierMonth` | backend/expense_service.py:14-20 | "on or after the first of this month" holds exactly for dates not in an earlier calendar month |
| `Budget.ExpensesInWindow` | backend/expense_service.py:17-21 | the filter keeps exactly the expenses dated in the window |
| `Budget.ExpensesInWindowCounts` | backend/expense_service.py:17-21 | the filter keeps every copy of an in-window expense and no other expense, so identical rows each count in the `SUM` |
| `Budget.IncomesInWindow` | backend/expense_service.py:24-28 | the filter keeps exactly the incomes dated in the window |
| `Budget.IncomesInWindowCounts` | backend/expense_service.py:24-28 | the filter keeps every copy of an in-window income and no other income |
| `Budget.WindowedExpenseSum` | backend/expense_service.py:17-21 | the `SUM` over the filtered expenses equals the sum over all expenses of each one's amount if it is dated in the window and 0 otherwise |
| `Budget.WindowedIncomeSum` | backend/expense_service.py:24-28 | the same for incomes |
| `Budget.MonthlySummary` | backend/expense_service.py:12-34 | spending is the sum of the in-window expense amounts, income the sum of the in-window income amounts (each record counted by amount if in the window, 0 otherwise), balance = income − expenses, and a side with no rows in the window counts 0 |
| `Budget.SummaryOfCurrentRecords` | backend/expense_service.py:12-34 | when every record is in the window, the summary is the overall totals |
| `Budget.EarlierExpenseDoesNotCount` | backend/expense_service.py:14-21 | adding an expense dated in an earlier month changes nothing in the summary |
| `Budget.EarlierIncomeDoesNotCount` | backend/expense_service.py:14-28 | adding an income dated in an earlier month changes nothing in the summary |
| `Budget.CurrentExpenseCounts` | backend/expense_service.py:17-34 | adding an in-window expense raises spending by its amount, leaves income alone and lowers the balance by it |
| `Budget.CurrentIncomeCounts` | backend/expense_service.py:24-34 | adding an in-window income raises income by its amount, leaves spending alone and raises the balance by it |
| `Budget.BreakdownIsWindowSpendingByCategory` | backend/expense_service.py:37-48 | one entry per category with an in-window expense, each that category's in-window sum, adding up to the month's spending |
| `Budget.ShareAlerts` | backend/expense_service.py:137-144 | every category alert carries a share above 40% |
| `Budget.Alerts` | backend/expense_service.py:121-146 | the overspending alert is present iff balance < 0; it is then first and carries −balance; no category alert when spending is not positive |
| `Budget.CategoryAlertsFollowOverspending` | backend/expense_service.py:126-146 | after the optional overspending alert come exactly the share alerts, or none if spending is not positive |
| `Budget.ShareAlertsExactlyAboveForty` | backend/expense_service.py:138-144 | every category alert belongs to a listed category with its share, and every category above 40% is alerted |
| `Budget.ShareAlertsKeepListOrder` | backend/expense_service.py:138-144 | with distinct category names, the alerts follow the order of the category list |
| `Budget.ShareAlertsCount` | backend/expense_service.py:138-144 | the number of category alerts is the number of categories above 40% of spending |
| `Budget.AtMostTwoCategoryAlerts` | backend/expense_service.py:121-146 | with non-negative amounts at most two categories are alerted |
| `Budget.SingleCategoryMonth` | backend/expense_service.py:121-146 | spending 80 on Food against income 50 gives the overspending alert for 30, then Food at 100% |

## Left out

- HTTP handling is not modelled: request parsing, the create/read/update/delete handlers, JSON encoding and the ORM session. The database queries become list parameters.
- The OpenAI call in `ExpenseService.generate_ai_insights`, its prompt and fallback text are not modelled. They are an external service and string formatting.
- Message texts are not modelled: the f-string messages and the `:.1f` / `:.2f` rounding. Only titles, priorities, actions and the numbers are kept.
- The anomaly reason string is not modelled. The model keeps its ratio as a number and keeps the division by zero that formatting it can raise.
- Floating-point rounding is not modelled; amounts are exact reals.
- Record identifiers and creation timestamps are not modelled. No analytic reads them.
- The clock is not modelled. "Today" is a date parameter, and the time of day is dropped. The source compares stored dates with `datetime.now().replace(day=1)`, which keeps the time of day; the model treats that as the first day of the month. The database is SQLite (backend/__init__.py:21). Reading the source, a date column compared with a date-time value likely binds the text "YYYY-MM-01 HH:MM:SS.ffffff", and a stored "YYYY-MM-01" sorts before that text. So the source probably leaves out records dated on the 1st of the month, while `Budget.InWindow` keeps them. This is an inference from how SQLite compares text; the model does not establish it.
- `Budget.BudgetAlerts` uses one "today" for both the summary and the category breakdown. The source reads the clock separately in `get_monthly_summary` and `get_category_breakdown` (backend/expense_service.py:14, 39, 123-124). A call that straddles a month boundary can mix two months, and the model does not cover that case.
- The dashboard's `monthly_data`, a `defaultdict` of `{'income', 'expenses'}` pairs, is modelled as two grouped dictionaries, one per side. Each field is only ever accumulated by its own loop, so a row reads each side's dictionary with default 0. Its key order is modelled separately (`Reports.RecordMonths`: income months first, then new expense months).
- `get_spending_trends` (its 180-day window) is not modelled. It only feeds the OpenAI prompt.
- The row order of SQL `GROUP BY` is not modelled; SQL leaves it unspecified. The category breakdown of the service layer uses first-appearance order. The alert order is stated relative to whatever list order is given.
- `statistics.stdev` is replaced by a square-root-free test. `InsightEngine.BeyondOneDeviationIsAboveMeanPlusStdev` proves the two agree.
- Month-key order matches calendar order only for four-digit years. Dates before year 1000 give shorter keys, and the chronology lemmas require four-digit years.
- Trend prediction is modelled as written, using insertion order. `InsightEngine.TrendFollowsInsertionOrder` shows this can differ from calendar order.
