/** The anomaly detector of the insights endpoint: within each category that
    has more than one expense, every expense above twice the category mean
    is reported. The report message divides the amount by the mean, which
    raises when the mean is zero. */
module Anomalies {
  import opened Outcomes
  import opened Aggregation
  import opened Records
  import opened InsightEngine

  datatype Anomaly = Anomaly(amount: real, category: string, ratio: real, categoryMean: real)

  /** `[exp for exp in expenses if exp.category == c]`. */
  function OfCategory(expenses: seq<Expense>, c: string): (r: seq<Expense>)
    ensures |r| <= |expenses|
    ensures forall i :: 0 <= i < |r| ==> r[i].category == c
    ensures forall e :: e in r <==> e in expenses && e.category == c
  {
    if |expenses| == 0 then []
    else
      assert forall e :: e in expenses <==> e == expenses[0] || e in expenses[1..];
      (if expenses[0].category == c then [expenses[0]] else []) + OfCategory(expenses[1..], c)
  }

  /** The filter keeps every copy: an expense of category `c` appears in
      the result as many times as in `expenses`, any other not at all. */
  lemma {:induction false} OfCategoryCounts(expenses: seq<Expense>, c: string)
    ensures forall e :: multiset(OfCategory(expenses, c))[e]
                        == if e.category == c then multiset(expenses)[e] else 0
    decreases |expenses|
  {
    if |expenses| > 0 {
      var head := if expenses[0].category == c then [expenses[0]] else [];
      assert OfCategory(expenses, c) == head + OfCategory(expenses[1..], c);
      assert expenses == [expenses[0]] + expenses[1..];
      OfCategoryCounts(expenses[1..], c);
    }
  }

  /** The mean amount of the category's expenses (0 for a category with
      none, which the detector never asks about). */
  function CategoryMean(expenses: seq<Expense>, c: string): real
  {
    var ces := OfCategory(expenses, c);
    if |ces| == 0 then 0.0 else Mean(ExpenseAmounts(ces))
  }

  /** The detector's criterion for one expense. */
  predicate Flagged(expenses: seq<Expense>, e: Expense)
  {
    |OfCategory(expenses, e.category)| > 1 && e.amount > CategoryMean(expenses, e.category) * 2.0
  }

  function Report(expenses: seq<Expense>, e: Expense): Anomaly
  {
    var mean := CategoryMean(expenses, e.category);
    Anomaly(e.amount, e.category, if mean == 0.0 then 0.0 else e.amount / mean, mean)
  }

  /** The reports owed for the flagged members of `ces`, in order. */
  function Owed(expenses: seq<Expense>, ces: seq<Expense>): (r: seq<Anomaly>)
    ensures |r| <= |ces|
  {
    if |ces| == 0 then []
    else (if Flagged(expenses, ces[0]) then [Report(expenses, ces[0])] else []) + Owed(expenses, ces[1..])
  }

  /** The inner loop over one category's expenses with its mean. */
  function Scan(ces: seq<Expense>, mean: real): Result<seq<Anomaly>>
  {
    if |ces| == 0 then Ok([])
    else
      var e := ces[0];
      if e.amount > mean * 2.0 then
        if mean == 0.0 then Err(ZeroDivisionError)
        else match Scan(ces[1..], mean)
          case Err(f) => Err(f)
          case Ok(rest) => Ok([Anomaly(e.amount, e.category, e.amount / mean, mean)] + rest)
      else Scan(ces[1..], mean)
  }

  /** One iteration of the outer loop: categories with a single expense are
      skipped. */
  function CategoryAnomalies(expenses: seq<Expense>, c: string): Result<seq<Anomaly>>
  {
    var ces := OfCategory(expenses, c);
    if |ces| > 1 then Scan(ces, CategoryMean(expenses, c)) else Ok([])
  }

  function AnomaliesOver(expenses: seq<Expense>, cats: seq<string>): Result<seq<Anomaly>>
  {
    if |cats| == 0 then Ok([])
    else match CategoryAnomalies(expenses, cats[0])
      case Err(f) => Err(f)
      case Ok(first) =>
        match AnomaliesOver(expenses, cats[1..])
        case Err(f) => Err(f)
        case Ok(rest) => Ok(first + rest)
  }

  /** The anomaly loop of the insights endpoint: categories in the order of
      the category breakdown. */
  function DetectAnomalies(expenses: seq<Expense>): Result<seq<Anomaly>>
  {
    AnomaliesOver(expenses, Keys(CategoryBreakdown(expenses)))
  }

  /** A flagged expense whose category mean is zero: reporting it divides by
      zero. */
  predicate ZeroMeanOutlier(expenses: seq<Expense>)
  {
    exists i :: 0 <= i < |expenses| && Flagged(expenses, expenses[i])
                && CategoryMean(expenses, expenses[i].category) == 0.0
  }

  /** The anomalies reported for category `c`. */
  function WithCategory(anomalies: seq<Anomaly>, c: string): seq<Anomaly>
  {
    if |anomalies| == 0 then []
    else (if anomalies[0].category == c then [anomalies[0]] else []) + WithCategory(anomalies[1..], c)
  }

  lemma {:induction false} WithCategoryConcat(a: seq<Anomaly>, b: seq<Anomaly>, c: string)
    ensures WithCategory(a + b, c) == WithCategory(a, c) + WithCategory(b, c)
    decreases |a|
  {
    if |a| == 0 {
      assert a + b == b;
    } else {
      var head := if a[0].category == c then [a[0]] else [];
      assert (a + b)[0] == a[0];
      assert (a + b)[1..] == a[1..] + b;
      assert WithCategory(a + b, c) == head + WithCategory(a[1..] + b, c);
      WithCategoryConcat(a[1..], b, c);
    }
  }

  lemma {:induction false} WithCategoryUniform(a: seq<Anomaly>, c: string, c': string)
    requires forall i :: 0 <= i < |a| ==> a[i].category == c'
    ensures WithCategory(a, c) == if c == c' then a else []
    decreases |a|
  {
    if |a| > 0 {
      WithCategoryUniform(a[1..], c, c');
      assert a == [a[0]] + a[1..];
    }
  }

  lemma {:induction false} OwedCategory(expenses: seq<Expense>, ces: seq<Expense>, c: string)
    requires forall i :: 0 <= i < |ces| ==> ces[i].category == c
    ensures forall i :: 0 <= i < |Owed(expenses, ces)| ==> Owed(expenses, ces)[i].category == c
    decreases |ces|
  {
    if |ces| > 0 {
      OwedCategory(expenses, ces[1..], c);
    }
  }

  lemma {:induction false} NothingOwedWhenNoneFlagged(expenses: seq<Expense>, ces: seq<Expense>)
    requires forall i :: 0 <= i < |ces| ==> !Flagged(expenses, ces[i])
    ensures Owed(expenses, ces) == []
    decreases |ces|
  {
    if |ces| > 0 {
      NothingOwedWhenNoneFlagged(expenses, ces[1..]);
    }
  }

  /** Scanning a category with more than one expense fails exactly when it
      meets a flagged expense while the mean is zero, and otherwise reports
      exactly the flagged expenses, in order. */
  lemma {:induction false} ScanReportsFlagged(expenses: seq<Expense>, c: string, ces: seq<Expense>)
    requires |OfCategory(expenses, c)| > 1
    requires forall i :: 0 <= i < |ces| ==> ces[i].category == c
    ensures var r := Scan(ces, CategoryMean(expenses, c));
      && (r.Ok? <==> !(CategoryMean(expenses, c) == 0.0
                       && (exists i :: 0 <= i < |ces| && Flagged(expenses, ces[i]))))
      && (r.Ok? ==> r.value == Owed(expenses, ces))
    decreases |ces|
  {
    if |ces| > 0 {
      ScanReportsFlagged(expenses, c, ces[1..]);
      assert forall i :: 1 <= i < |ces| ==> ces[i] == ces[1..][i - 1];
    }
  }

  /** The category's own scan meets a flagged expense while its mean is
      zero. */
  predicate CategoryFails(expenses: seq<Expense>, c: string)
  {
    var ces := OfCategory(expenses, c);
    CategoryMean(expenses, c) == 0.0 && exists i :: 0 <= i < |ces| && Flagged(expenses, ces[i])
  }

  lemma CategoryAnomaliesReportFlagged(expenses: seq<Expense>, c: string)
    ensures var r := CategoryAnomalies(expenses, c);
      && (r.Ok? <==> !CategoryFails(expenses, c))
      && (r.Ok? ==> r.value == Owed(expenses, OfCategory(expenses, c)))
  {
    var ces := OfCategory(expenses, c);
    if |ces| > 1 {
      ScanReportsFlagged(expenses, c, ces);
    } else {
      NothingOwedWhenNoneFlagged(expenses, ces);
    }
  }

  /** Over a list of distinct categories, the reports for one category are
      the reports owed to it if it is listed, and none otherwise. */
  lemma {:induction false} AnomaliesOverByCategory(expenses: seq<Expense>, cats: seq<string>, c: string)
    requires NoDuplicates(cats)
    requires AnomaliesOver(expenses, cats).Ok?
    ensures WithCategory(AnomaliesOver(expenses, cats).value, c)
            == if c in cats then Owed(expenses, OfCategory(expenses, c)) else []
    decreases |cats|
  {
    if |cats| > 0 {
      var head := cats[0];
      CategoryAnomaliesReportFlagged(expenses, head);
      var first := CategoryAnomalies(expenses, head).value;
      assert NoDuplicates(cats[1..]);
      AnomaliesOverByCategory(expenses, cats[1..], c);
      var rest := AnomaliesOver(expenses, cats[1..]).value;
      WithCategoryConcat(first, rest, c);
      OwedCategory(expenses, OfCategory(expenses, head), head);
      WithCategoryUniform(first, c, head);
      assert c in cats <==> c == head || c in cats[1..];
      if c == head {
        assert c !in cats[1..];
      }
    }
  }

  lemma {:induction false} AnomaliesOverSucceeds(expenses: seq<Expense>, cats: seq<string>)
    ensures AnomaliesOver(expenses, cats).Ok?
            <==> forall k :: 0 <= k < |cats| ==> CategoryAnomalies(expenses, cats[k]).Ok?
    decreases |cats|
  {
    if |cats| > 0 {
      AnomaliesOverSucceeds(expenses, cats[1..]);
      assert forall k :: 1 <= k < |cats| ==> cats[k] == cats[1..][k - 1];
    }
  }

  lemma CategoriesListed(expenses: seq<Expense>, c: string)
    ensures c in Keys(CategoryBreakdown(expenses)) <==> |OfCategory(expenses, c)| > 0
  {
    var ks := Keys(ByCategory(expenses));
    if |OfCategory(expenses, c)| > 0 {
      var e := OfCategory(expenses, c)[0];
      var i :| 0 <= i < |expenses| && expenses[i] == e;
      assert ks[i] == c;
    }
    if c in ks {
      var i :| 0 <= i < |ks| && ks[i] == c;
      assert expenses[i] in OfCategory(expenses, c);
    }
  }

  lemma OutlierMakesCategoryFail(expenses: seq<Expense>, i: nat)
    requires i < |expenses|
    requires Flagged(expenses, expenses[i]) && CategoryMean(expenses, expenses[i].category) == 0.0
    ensures CategoryFails(expenses, expenses[i].category)
  {
    var ces := OfCategory(expenses, expenses[i].category);
    assert expenses[i] in ces;
    var j :| 0 <= j < |ces| && ces[j] == expenses[i];
  }

  lemma FailingCategoryHasOutlier(expenses: seq<Expense>, c: string)
    requires CategoryFails(expenses, c)
    ensures ZeroMeanOutlier(expenses)
  {
    var ces := OfCategory(expenses, c);
    var j :| 0 <= j < |ces| && Flagged(expenses, ces[j]);
    assert ces[j] in expenses;
    var i :| 0 <= i < |expenses| && expenses[i] == ces[j];
    assert Flagged(expenses, expenses[i]) && CategoryMean(expenses, expenses[i].category) == 0.0;
  }

  /** The detector fails exactly when some flagged expense has a zero
      category mean. */
  lemma DetectionFailsOnlyOnZeroMean(expenses: seq<Expense>)
    ensures DetectAnomalies(expenses).Err? <==> ZeroMeanOutlier(expenses)
  {
    var cats := Keys(CategoryBreakdown(expenses));
    AnomaliesOverSucceeds(expenses, cats);
    if ZeroMeanOutlier(expenses) {
      var i :| 0 <= i < |expenses| && Flagged(expenses, expenses[i])
               && CategoryMean(expenses, expenses[i].category) == 0.0;
      var c := expenses[i].category;
      OutlierMakesCategoryFail(expenses, i);
      CategoriesListed(expenses, c);
      var k :| 0 <= k < |cats| && cats[k] == c;
      CategoryAnomaliesReportFlagged(expenses, c);
    } else if DetectAnomalies(expenses).Err? {
      var k :| 0 <= k < |cats| && !CategoryAnomalies(expenses, cats[k]).Ok?;
      CategoryAnomaliesReportFlagged(expenses, cats[k]);
      FailingCategoryHasOutlier(expenses, cats[k]);
    }
  }

  /** For every category, the reports carrying that category are exactly the
      flagged expenses of that category, in their original order. */
  lemma AnomaliesOfEachCategory(expenses: seq<Expense>, c: string)
    requires DetectAnomalies(expenses).Ok?
    ensures WithCategory(DetectAnomalies(expenses).value, c) == Owed(expenses, OfCategory(expenses, c))
  {
    var cats := Keys(CategoryBreakdown(expenses));
    AnomaliesOverByCategory(expenses, cats, c);
    CategoriesListed(expenses, c);
  }

  /** A category with exactly one expense never yields an anomaly. */
  lemma SingleExpenseCategoryNeverFlagged(expenses: seq<Expense>, c: string)
    requires DetectAnomalies(expenses).Ok?
    requires |OfCategory(expenses, c)| == 1
    ensures WithCategory(DetectAnomalies(expenses).value, c) == []
  {
    AnomaliesOfEachCategory(expenses, c);
    var ces := OfCategory(expenses, c);
    forall i | 0 <= i < |ces| ensures !Flagged(expenses, ces[i]) {
      assert ces[i].category == c;
    }
    NothingOwedWhenNoneFlagged(expenses, ces);
  }

  lemma {:induction false} OwedMembership(expenses: seq<Expense>, ces: seq<Expense>, e: Expense)
    requires e in ces
    requires forall i :: 0 <= i < |ces| ==> ces[i].category == e.category
    ensures (exists a :: a in Owed(expenses, ces) && a.amount == e.amount) <==> Flagged(expenses, e)
    decreases |ces|
  {
    var owed := Owed(expenses, ces);
    if ces[0] == e {
      if Flagged(expenses, e) {
        assert owed[0] == Report(expenses, e);
      } else if exists a :: a in owed && a.amount == e.amount {
        var a :| a in owed && a.amount == e.amount;
        OwedReportsFlagged(expenses, ces, a);
      }
    } else {
      OwedMembership(expenses, ces[1..], e);
      if exists a :: a in owed && a.amount == e.amount {
        var a :| a in owed && a.amount == e.amount;
        OwedReportsFlagged(expenses, ces, a);
      }
    }
  }

  lemma {:induction false} OwedReportsFlagged(expenses: seq<Expense>, ces: seq<Expense>, a: Anomaly)
    requires a in Owed(expenses, ces)
    ensures exists i :: 0 <= i < |ces| && Flagged(expenses, ces[i])
                        && a == Report(expenses, ces[i])
    decreases |ces|
  {
    if !(Flagged(expenses, ces[0]) && a == Report(expenses, ces[0])) {
      OwedReportsFlagged(expenses, ces[1..], a);
      var i :| 0 <= i < |ces[1..]| && Flagged(expenses, ces[1..][i]) && a == Report(expenses, ces[1..][i]);
      assert ces[1..][i] == ces[i + 1];
    }
  }

  /** An expense is reported (an anomaly with its category and amount
      exists) exactly when it is flagged: its category has more than one
      expense and it exceeds twice the category mean. */
  lemma ReportedIffFlagged(expenses: seq<Expense>, e: Expense)
    requires DetectAnomalies(expenses).Ok?
    requires e in expenses
    ensures (exists a :: a in DetectAnomalies(expenses).value
                         && a.category == e.category && a.amount == e.amount)
            <==> Flagged(expenses, e)
  {
    var all := DetectAnomalies(expenses).value;
    var c := e.category;
    AnomaliesOfEachCategory(expenses, c);
    OwedMembership(expenses, OfCategory(expenses, c), e);
    WithCategoryMembership(all, c);
  }

  lemma {:induction false} WithCategoryMembership(a: seq<Anomaly>, c: string)
    ensures forall x :: x in WithCategory(a, c) <==> x in a && x.category == c
    decreases |a|
  {
    if |a| > 0 {
      WithCategoryMembership(a[1..], c);
      assert forall x :: x in a <==> x == a[0] || x in a[1..];
    }
  }

  lemma PositiveMemberMakesMeanPositive(expenses: seq<Expense>, i: nat)
    requires forall j :: 0 <= j < |expenses| ==> expenses[j].amount >= 0.0
    requires i < |expenses| && expenses[i].amount > 0.0
    ensures CategoryMean(expenses, expenses[i].category) > 0.0
  {
    var ces := OfCategory(expenses, expenses[i].category);
    var xs := ExpenseAmounts(ces);
    assert expenses[i] in ces;
    var k :| 0 <= k < |ces| && ces[k] == expenses[i];
    forall j | 0 <= j < |xs| ensures xs[j] >= 0.0 {
      assert ces[j] in expenses;
    }
    SumAtLeastMember(xs, k);
    QuotientPositive(Sum(xs), |xs| as real);
  }

  lemma QuotientPositive(a: real, b: real)
    requires a > 0.0 && b > 0.0
    ensures a / b > 0.0
  {
    assert (a / b) * b == a;
  }

  /** With non-negative amounts (what the data model intends) the detector
      never divides by zero: a flagged expense is positive, so its
      category's mean is positive. */
  lemma NonNegativeAmountsNeverFail(expenses: seq<Expense>)
    requires forall i :: 0 <= i < |expenses| ==> expenses[i].amount >= 0.0
    ensures DetectAnomalies(expenses).Ok?
  {
    DetectionFailsOnlyOnZeroMean(expenses);
    if ZeroMeanOutlier(expenses) {
      var i :| 0 <= i < |expenses| && Flagged(expenses, expenses[i])
               && CategoryMean(expenses, expenses[i].category) == 0.0;
      PositiveMemberMakesMeanPositive(expenses, i);
    }
  }

  /** A negative amount can cancel a positive one: the mean is zero, the
      positive expense exceeds twice it, and the report divides by zero. */
  lemma CancellingAmountsFail()
    ensures DetectAnomalies([Expense("Food", 5.0, "", Date(2025, 6, 1)),
                             Expense("Food", -5.0, "", Date(2025, 6, 2))]).Err?
  {
    var es := [Expense("Food", 5.0, "", Date(2025, 6, 1)), Expense("Food", -5.0, "", Date(2025, 6, 2))];
    assert OfCategory(es, "Food") == es;
    assert ExpenseAmounts(es) == [5.0, -5.0];
    assert ExpenseAmounts(es)[..1] == [5.0];
    assert Sum([5.0]) == 5.0;
    assert Sum(ExpenseAmounts(es)) == 0.0;
    assert CategoryMean(es, "Food") == 0.0;
    var ks := Keys(ByCategory(es));
    assert ks == ["Food", "Food"] && ks[..1] == ["Food"];
    assert Keys(CategoryBreakdown(es)) == ["Food"];
  }

  /** Food amounts 50, 45 and 500: the mean is 595/3 and only the 500 is
      reported. */
  lemma OnlyTheLargeFoodExpenseIsReported()
    ensures var es := [Expense("Food", 50.0, "", Date(2025, 6, 1)),
                       Expense("Food", 45.0, "", Date(2025, 6, 2)),
                       Expense("Food", 500.0, "", Date(2025, 6, 3))];
      DetectAnomalies(es) == Ok([Anomaly(500.0, "Food", 500.0 / (595.0 / 3.0), 595.0 / 3.0)])
  {
    var es := [Expense("Food", 50.0, "", Date(2025, 6, 1)),
               Expense("Food", 45.0, "", Date(2025, 6, 2)),
               Expense("Food", 500.0, "", Date(2025, 6, 3))];
    FoodExampleCategories(es);
    FoodExampleScan(es);
  }

  lemma FoodExampleCategories(es: seq<Expense>)
    requires es == [Expense("Food", 50.0, "", Date(2025, 6, 1)),
                    Expense("Food", 45.0, "", Date(2025, 6, 2)),
                    Expense("Food", 500.0, "", Date(2025, 6, 3))]
    ensures Keys(CategoryBreakdown(es)) == ["Food"]
    ensures OfCategory(es, "Food") == es
    ensures CategoryMean(es, "Food") == 595.0 / 3.0
  {
    FoodExampleMean(es);
    var ks := Keys(ByCategory(es));
    assert ks == ["Food", "Food", "Food"];
    assert ks[..2] == ["Food", "Food"] && ks[..2][..1] == ["Food"];
    assert Distinct(ks[..2][..1]) == ["Food"];
    assert Distinct(ks[..2]) == ["Food"];
    assert Distinct(ks) == ["Food"];
  }

  lemma FoodExampleMean(es: seq<Expense>)
    requires es == [Expense("Food", 50.0, "", Date(2025, 6, 1)),
                    Expense("Food", 45.0, "", Date(2025, 6, 2)),
                    Expense("Food", 500.0, "", Date(2025, 6, 3))]
    ensures OfCategory(es, "Food") == es
    ensures CategoryMean(es, "Food") == 595.0 / 3.0
  {
    assert OfCategory(es, "Food") == es;
    var xs := ExpenseAmounts(es);
    assert xs == [50.0, 45.0, 500.0];
    assert xs[..2] == [50.0, 45.0] && xs[..2][..1] == [50.0];
    assert Sum([50.0]) == 50.0;
    assert Sum([50.0, 45.0]) == 95.0;
    assert Sum(xs) == 595.0;
  }

  lemma FoodExampleScan(es: seq<Expense>)
    requires es == [Expense("Food", 50.0, "", Date(2025, 6, 1)),
                    Expense("Food", 45.0, "", Date(2025, 6, 2)),
                    Expense("Food", 500.0, "", Date(2025, 6, 3))]
    ensures Scan(es, 595.0 / 3.0) == Ok([Anomaly(500.0, "Food", 500.0 / (595.0 / 3.0), 595.0 / 3.0)])
  {
    var m := 595.0 / 3.0;
    assert m != 0.0 && 500.0 > m * 2.0 && !(45.0 > m * 2.0) && !(50.0 > m * 2.0);
    var a := Anomaly(500.0, "Food", 500.0 / m, m);
    assert es[2..][1..] == [];
    assert Scan(es[2..], m) == Ok([a] + []);
    assert [a] + [] == [a];
    assert es[1..][1..] == es[2..];
    assert es[1..][0].amount == 45.0;
    assert Scan(es[1..], m) == Ok([a]);
  }
}
