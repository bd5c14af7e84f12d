/** The insight report: financial health, spending patterns, rule-fired
    recommendations, behavioural flags and a one-step trend prediction, all
    computed from the full expense and income lists. */
module InsightEngine {
  import opened Outcomes
  import opened StringOrder
  import opened Aggregation
  import opened Ranking
  import opened Records

  // ---------------------------------------------------------------------
  // Financial health

  /** Net savings as a percentage of income, 0 when there is no positive
      income to divide by. */
  function SavingsRate(totalIncome: real, totalExpenses: real): (rate: real)
    ensures totalIncome <= 0.0 ==> rate == 0.0
    ensures totalIncome > 0.0 ==> rate * totalIncome == (totalIncome - totalExpenses) * 100.0
    ensures totalIncome > 0.0 ==> (rate >= 0.0 <==> totalExpenses <= totalIncome)
  {
    if totalIncome > 0.0 then
      var rate := (totalIncome - totalExpenses) / totalIncome * 100.0;
      SignOfQuotient(totalIncome - totalExpenses, totalIncome);
      rate
    else 0.0
  }

  lemma SignOfQuotient(a: real, b: real)
    requires b > 0.0
    ensures a / b * 100.0 >= 0.0 <==> a >= 0.0
  {
    if a < 0.0 {
      assert a / b < 0.0;
    }
  }

  /** `min(100, max(0, savings_rate + 50))`. */
  function FinancialScore(rate: real): (score: real)
    ensures 0.0 <= score <= 100.0
    ensures -50.0 <= rate <= 50.0 ==> score == rate + 50.0
    ensures rate < -50.0 ==> score == 0.0
    ensures rate > 50.0 ==> score == 100.0
  {
    var lifted := if 0.0 > rate + 50.0 then 0.0 else rate + 50.0;
    if 100.0 < lifted then 100.0 else lifted
  }

  datatype FinancialHealth = FinancialHealth(
    totalIncome: real,
    totalExpenses: real,
    netSavings: real,
    savingsRate: real,
    financialScore: real)

  function Health(expenses: seq<Expense>, incomes: seq<Income>): (h: FinancialHealth)
    ensures h.totalIncome == TotalIncome(incomes) && h.totalExpenses == TotalExpenses(expenses)
    ensures h.netSavings == h.totalIncome - h.totalExpenses
    ensures h.savingsRate == SavingsRate(h.totalIncome, h.totalExpenses)
    ensures h.financialScore == FinancialScore(h.savingsRate) && 0.0 <= h.financialScore <= 100.0
  {
    var income := TotalIncome(incomes);
    var spent := TotalExpenses(expenses);
    var rate := SavingsRate(income, spent);
    FinancialHealth(income, spent, income - spent, rate, FinancialScore(rate))
  }

  // ---------------------------------------------------------------------
  // Spending patterns

  /** `category_breakdown`: category -> summed amount, in order of first
      appearance. */
  function CategoryBreakdown(expenses: seq<Expense>): seq<(Key, real)>
  {
    GroupSum(ByCategory(expenses))
  }

  /** `monthly_trends`: "YYYY-MM" -> summed amount, in order of first
      appearance. */
  function MonthlyTrends(expenses: seq<Expense>): seq<(Key, real)>
  {
    GroupSum(ExpensesByMonth(expenses))
  }

  /** Both groupings have one entry per key present, in first-appearance
      order, each holding that key's sum, and their values add up to the
      total spent. */
  lemma BreakdownsPartitionSpending(expenses: seq<Expense>)
    ensures Keys(CategoryBreakdown(expenses)) == Distinct(Keys(ByCategory(expenses)))
    ensures Keys(MonthlyTrends(expenses)) == Distinct(Keys(ExpensesByMonth(expenses)))
    ensures forall k :: Lookup(CategoryBreakdown(expenses), k, 0.0) == KeySum(ByCategory(expenses), k)
    ensures forall k :: Lookup(MonthlyTrends(expenses), k, 0.0) == KeySum(ExpensesByMonth(expenses), k)
    ensures Sum(Values(CategoryBreakdown(expenses))) == TotalExpenses(expenses)
    ensures Sum(Values(MonthlyTrends(expenses))) == TotalExpenses(expenses)
  {
    GroupSumTotal(ByCategory(expenses));
    GroupSumTotal(ExpensesByMonth(expenses));
    forall k ensures Lookup(CategoryBreakdown(expenses), k, 0.0) == KeySum(ByCategory(expenses), k) {
      LookupGroupSum(ByCategory(expenses), k);
    }
    forall k ensures Lookup(MonthlyTrends(expenses), k, 0.0) == KeySum(ExpensesByMonth(expenses), k) {
      LookupGroupSum(ExpensesByMonth(expenses), k);
    }
  }

  datatype SpendingPatterns = SpendingPatterns(
    categoryBreakdown: seq<(Key, real)>,
    monthlyTrends: seq<(Key, real)>,
    topCategories: seq<(Key, real)>)

  function Patterns(expenses: seq<Expense>): (p: SpendingPatterns)
    ensures NoDuplicates(Keys(p.categoryBreakdown)) && NoDuplicates(Keys(p.monthlyTrends))
    ensures |p.topCategories| == if |p.categoryBreakdown| < 3 then |p.categoryBreakdown| else 3
    ensures multiset(p.topCategories) <= multiset(p.categoryBreakdown)
  {
    var breakdown := CategoryBreakdown(expenses);
    SpendingPatterns(breakdown, MonthlyTrends(expenses), Top(breakdown, 3))
  }

  // ---------------------------------------------------------------------
  // Recommendations

  datatype Priority = Critical | High | Medium | Low

  datatype Recommendation = Recommendation(
    title: string,
    priority: Priority,
    action: string,
    potentialSavings: real)

  /** The one savings-rate recommendation: critical below 10%, high below
      20%, low otherwise. */
  function SavingsTier(rate: real, totalExpenses: real): (r: Recommendation)
    ensures r.priority != Medium
    ensures r.priority == Critical <==> rate < 10.0
    ensures r.priority == High <==> 10.0 <= rate < 20.0
    ensures r.priority == Low <==> 20.0 <= rate
    ensures r.potentialSavings == match r.priority
      case Critical => totalExpenses * 0.3
      case High => totalExpenses * 0.1
      case _ => 0.0
  {
    if rate < 10.0 then
      Recommendation("Emergency: Low Savings Rate", Critical,
                     "Reduce discretionary spending by 30%", totalExpenses * 0.3)
    else if rate < 20.0 then
      Recommendation("Improve Savings Rate", High,
                     "Identify and reduce top 2 expense categories", totalExpenses * 0.1)
    else
      Recommendation("Excellent Savings!", Low, "Explore investment opportunities", 0.0)
  }

  function FoodAdvice(food: real): Recommendation
  {
    Recommendation("Food Budget Optimization", Medium, "Reduce food spending by 20%", food * 0.2)
  }

  function EntertainmentAdvice(entertainment: real): Recommendation
  {
    Recommendation("Entertainment Budget Control", Medium, "Set monthly entertainment budget",
                   entertainment * 0.3)
  }

  /** The recommendation list: the savings tier, then the Food rule when
      Food spending exceeds a quarter of income, then the Entertainment rule
      when Entertainment spending exceeds 15% of income. */
  function Recommendations(rate: real, totalExpenses: real, totalIncome: real,
                           food: real, entertainment: real): (recs: seq<Recommendation>)
    ensures 1 <= |recs| <= 3
    ensures recs[0] == SavingsTier(rate, totalExpenses)
    ensures forall i :: 1 <= i < |recs| ==> recs[i].priority == Medium
    ensures FoodAdvice(food) in recs <==> food > totalIncome * 0.25
    ensures EntertainmentAdvice(entertainment) in recs <==> entertainment > totalIncome * 0.15
    ensures |recs| == 1 + (if food > totalIncome * 0.25 then 1 else 0)
                        + (if entertainment > totalIncome * 0.15 then 1 else 0)
    ensures forall i, j ::
              (0 <= i < |recs| && 0 <= j < |recs| && recs[i] == FoodAdvice(food)
               && recs[j] == EntertainmentAdvice(entertainment)) ==> i < j
  {
    var tier := SavingsTier(rate, totalExpenses);
    var foodRule := if food > totalIncome * 0.25 then [FoodAdvice(food)] else [];
    var funRule := if entertainment > totalIncome * 0.15 then [EntertainmentAdvice(entertainment)] else [];
    [tier] + foodRule + funRule
  }

  // ---------------------------------------------------------------------
  // Behavioural insights

  datatype Behaviour =
    | ImpulseSpending(averageExpense: real, confidence: int)
    | LimitedCategories(confidence: int)

  function Mean(xs: seq<real>): real
    requires |xs| > 0
  {
    Sum(xs) / (|xs| as real)
  }

  function SquaredDeviations(xs: seq<real>, m: real): (r: real)
    ensures r >= 0.0
  {
    if |xs| == 0 then 0.0
    else
      SquareNonNegative(xs[|xs| - 1] - m);
      SquaredDeviations(xs[..|xs| - 1], m) + (xs[|xs| - 1] - m) * (xs[|xs| - 1] - m)
  }

  lemma SquareNonNegative(x: real)
    ensures x * x >= 0.0
  {
    if x < 0.0 {
      assert x * x == (-x) * (-x);
    }
  }

  lemma ProductPositive(a: real, b: real)
    requires a > 0.0 && b > 0.0
    ensures a * b > 0.0
  {
  }

  lemma ProductNonNegative(a: real, b: real)
    requires a >= 0.0 && b >= 0.0
    ensures a * b >= 0.0
  {
  }

  /** `statistics.variance`: the sample variance, the square of
      `statistics.stdev`. */
  function SampleVariance(xs: seq<real>): (v: real)
    requires |xs| >= 2
    ensures v >= 0.0
  {
    SquaredDeviations(xs, Mean(xs)) / ((|xs| - 1) as real)
  }

  /** `amount > mean + stdev`, written without the square root. */
  predicate BeyondOneDeviation(amount: real, mean: real, variance: real)
  {
    amount - mean > 0.0 && (amount - mean) * (amount - mean) > variance
  }

  /** The square-root-free test agrees with `amount > mean + s` for the
      non-negative `s` whose square is the variance. */
  lemma BeyondOneDeviationIsAboveMeanPlusStdev(amount: real, mean: real, variance: real, s: real)
    requires s >= 0.0 && s * s == variance
    ensures BeyondOneDeviation(amount, mean, variance) <==> amount > mean + s
  {
    var d := amount - mean;
    if d > s {
      assert d * d > s * s by {
        assert d * d - s * s == (d - s) * (d + s);
        ProductPositive(d - s, d + s);
      }
    } else if d > 0.0 {
      assert d * d <= s * s by {
        assert s * s - d * d == (s - d) * (s + d);
        ProductNonNegative(s - d, s + d);
      }
    }
  }

  function CountBeyondOneDeviation(xs: seq<real>, mean: real, variance: real): (n: nat)
    ensures n <= |xs|
  {
    if |xs| == 0 then 0
    else CountBeyondOneDeviation(xs[..|xs| - 1], mean, variance)
         + (if BeyondOneDeviation(xs[|xs| - 1], mean, variance) then 1 else 0)
  }

  /** `len(set(exp.category for exp in expenses))`. */
  function CategoryCount(expenses: seq<Expense>): nat
  {
    |set i | 0 <= i < |expenses| :: expenses[i].category|
  }

  /** Impulse spending: more than five expenses and more than 30% of them
      above mean + one standard deviation. */
  predicate ImpulseSpendingDetected(expenses: seq<Expense>)
  {
    var xs := ExpenseAmounts(expenses);
    |expenses| > 5 &&
    (CountBeyondOneDeviation(xs, Mean(xs), SampleVariance(xs)) as real) > (|expenses| as real) * 0.3
  }

  /** Limited categories: fewer than four distinct categories across more
      than ten expenses. */
  predicate FewCategoriesDetected(expenses: seq<Expense>)
  {
    CategoryCount(expenses) < 4 && |expenses| > 10
  }

  /** The flags in their fixed order: impulse spending, then limited
      categories, each present exactly when its rule holds. */
  function BehaviouralInsights(expenses: seq<Expense>): (flags: seq<Behaviour>)
    ensures |flags| == (if ImpulseSpendingDetected(expenses) then 1 else 0)
                       + (if FewCategoriesDetected(expenses) then 1 else 0)
    ensures ImpulseSpendingDetected(expenses) <==> |flags| > 0 && flags[0].ImpulseSpending?
    ensures ImpulseSpendingDetected(expenses) ==>
              flags[0] == ImpulseSpending(Mean(ExpenseAmounts(expenses)), 85)
    ensures FewCategoriesDetected(expenses) <==>
              |flags| > 0 && flags[|flags| - 1] == LimitedCategories(78)
  {
    var impulse := if ImpulseSpendingDetected(expenses)
                   then [ImpulseSpending(Mean(ExpenseAmounts(expenses)), 85)] else [];
    var limited := if FewCategoriesDetected(expenses) then [LimitedCategories(78)] else [];
    impulse + limited
  }

  /** The distinct-category count of the limited-categories rule is the
      number of entries in the category breakdown. */
  lemma CategoryCountIsBreakdownSize(expenses: seq<Expense>)
    ensures CategoryCount(expenses) == |CategoryBreakdown(expenses)|
  {
    var ks := Keys(ByCategory(expenses));
    DistinctCardinality(ks);
    assert (set i | 0 <= i < |expenses| :: expenses[i].category) == (set x | x in ks) by {
      forall x | x in ks ensures x in (set i | 0 <= i < |expenses| :: expenses[i].category) {
        var i :| 0 <= i < |ks| && ks[i] == x;
        assert expenses[i].category == x;
      }
      forall i | 0 <= i < |expenses| ensures expenses[i].category in ks {
        assert ks[i] == expenses[i].category;
      }
    }
  }

  // ---------------------------------------------------------------------
  // Trend prediction

  datatype Direction = Increasing | Decreasing

  datatype Prediction = Prediction(monthlyTrend: real, predictedNextMonth: real, direction: Direction)

  /** Extrapolates from the last two month buckets in insertion order: the
      predicted value continues the step between them. */
  function Predict(trends: seq<(Key, real)>): (p: Option<Prediction>)
    ensures p.Some? <==> |trends| >= 2
    ensures p.Some? ==>
      var last, previous := trends[|trends| - 1].1, trends[|trends| - 2].1;
      && p.value.monthlyTrend == last - previous
      && p.value.predictedNextMonth - last == last - previous
      && (p.value.direction == Increasing <==> last > previous)
  {
    if |trends| >= 2 then
      var values := Values(trends);
      var recent := values[|values| - 1] - values[|values| - 2];
      Some(Prediction(recent, values[|values| - 1] + recent,
                      if recent > 0.0 then Increasing else Decreasing))
    else None
  }

  /** A flat trend is reported as decreasing. */
  lemma FlatTrendIsDecreasing(trends: seq<(Key, real)>)
    requires |trends| >= 2 && trends[|trends| - 1].1 == trends[|trends| - 2].1
    ensures Predict(trends) == Some(Prediction(0.0, trends[|trends| - 1].1, Decreasing))
  {
  }

  lemma {:induction false} DistinctOfNonDecreasingIsAscending(s: seq<string>)
    requires NonDecreasing(s)
    ensures Ascending(Distinct(s))
    decreases |s|
  {
    if |s| > 0 {
      var init, last := s[..|s| - 1], s[|s| - 1];
      DistinctOfNonDecreasingIsAscending(init);
      var d := Distinct(init);
      if last !in d {
        forall i | 0 <= i < |d| ensures Less(d[i], last) {
          assert d[i] in init;
          var k :| 0 <= k < |init| && init[k] == d[i];
          assert s[k] == last || Less(s[k], last);
        }
      }
    }
  }

  /** When the expenses arrive in date order (four-digit years), the month
      buckets are in chronological order, so the prediction uses the two
      latest months. */
  lemma TrendBucketsChronologicalWhenSorted(expenses: seq<Expense>)
    requires forall i :: 0 <= i < |expenses| ==> 1000 <= expenses[i].date.year
    requires forall i, j :: 0 <= i < j < |expenses| ==> OnOrBefore(expenses[i].date, expenses[j].date)
    ensures Ascending(Keys(MonthlyTrends(expenses)))
  {
    var ks := Keys(ExpensesByMonth(expenses));
    forall i, j | 0 <= i < j < |ks| ensures ks[i] == ks[j] || Less(ks[i], ks[j]) {
      MonthKeyOrder(expenses[i].date, expenses[j].date);
    }
    DistinctOfNonDecreasingIsAscending(ks);
  }

  /** Insertion order is not chronological order: with June's expense
      recorded before May's, the "last two buckets" are June then May, and
      spending that fell from 200 to 100 is reported as increasing. */
  lemma TrendFollowsInsertionOrder()
    ensures
      var june := Expense("Food", 100.0, "", Date(2025, 6, 10));
      var may := Expense("Food", 200.0, "", Date(2025, 5, 10));
      && MonthBefore(may.date, june.date)
      && Predict(MonthlyTrends([june, may])) == Some(Prediction(100.0, 300.0, Increasing))
  {
    var june := Expense("Food", 100.0, "", Date(2025, 6, 10));
    var may := Expense("Food", 200.0, "", Date(2025, 5, 10));
    MonthKeyOrder(may.date, june.date);
    var items := ExpensesByMonth([june, may]);
    assert items == [(MonthKey(june.date), 100.0), (MonthKey(may.date), 200.0)];
    assert items[..1] == [(MonthKey(june.date), 100.0)];
    assert items[..1][..0] == [];
    assert GroupSum(items[..1][..0]) == [];
    assert AddTo([], MonthKey(june.date), 100.0) == [(MonthKey(june.date), 100.0)];
    assert GroupSum(items[..1]) == [(MonthKey(june.date), 100.0)];
    assert MonthKey(june.date) != MonthKey(may.date);
    assert [(MonthKey(june.date), 100.0)][1..] == [];
    assert AddTo([(MonthKey(june.date), 100.0)], MonthKey(may.date), 200.0)
        == [(MonthKey(june.date), 100.0), (MonthKey(may.date), 200.0)];
    assert MonthlyTrends([june, may]) == [(MonthKey(june.date), 100.0), (MonthKey(may.date), 200.0)];
  }

  // ---------------------------------------------------------------------
  // The report

  datatype Insights = Insights(
    health: Option<FinancialHealth>,
    patterns: Option<SpendingPatterns>,
    recommendations: seq<Recommendation>,
    behaviour: seq<Behaviour>,
    prediction: Option<Prediction>)

  /** `generate_ai_insights(expenses, incomes)`: an empty report when there
      are no records at all, otherwise every section computed from the full
      lists. */
  function GenerateInsights(expenses: seq<Expense>, incomes: seq<Income>): (r: Insights)
    ensures |expenses| == 0 && |incomes| == 0 ==> r == Insights(None, None, [], [], None)
    ensures |expenses| > 0 || |incomes| > 0 ==>
      && r.health == Some(Health(expenses, incomes))
      && r.patterns == Some(Patterns(expenses))
      && r.behaviour == BehaviouralInsights(expenses)
      && r.prediction == Predict(MonthlyTrends(expenses))
      && r.recommendations == Recommendations(
           r.health.value.savingsRate, TotalExpenses(expenses), TotalIncome(incomes),
           KeySum(ByCategory(expenses), "Food"), KeySum(ByCategory(expenses), "Entertainment"))
  {
    if |expenses| == 0 && |incomes| == 0 then Insights(None, None, [], [], None)
    else
      var health := Health(expenses, incomes);
      var patterns := Patterns(expenses);
      var breakdown := patterns.categoryBreakdown;
      LookupGroupSum(ByCategory(expenses), "Food");
      LookupGroupSum(ByCategory(expenses), "Entertainment");
      var recs := Recommendations(health.savingsRate, health.totalExpenses, health.totalIncome,
                                  Lookup(breakdown, "Food", 0.0),
                                  Lookup(breakdown, "Entertainment", 0.0));
      Insights(Some(health), Some(patterns), recs, BehaviouralInsights(expenses),
               Predict(patterns.monthlyTrends))
  }

  /** In a non-empty report exactly one recommendation is a savings tier and
      it comes first; the score lies in [0, 100]; a prediction is present
      exactly when spending spans at least two months. */
  lemma ReportShape(expenses: seq<Expense>, incomes: seq<Income>)
    requires |expenses| > 0 || |incomes| > 0
    ensures var r := GenerateInsights(expenses, incomes);
      && 1 <= |r.recommendations|
      && r.recommendations[0].priority != Medium
      && (forall i :: 1 <= i < |r.recommendations| ==> r.recommendations[i].priority == Medium)
      && 0.0 <= r.health.value.financialScore <= 100.0
      && (r.prediction.Some? <==> |Distinct(Keys(ExpensesByMonth(expenses)))| >= 2)
  {
  }
}
