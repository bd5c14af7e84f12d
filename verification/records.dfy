/** The two stored record kinds, calendar dates, and the "YYYY-MM" month
    keys the analytics group by. Identifiers and creation timestamps are
    not read by any of the analytics and are not modelled. */
module Records {
  import opened StringOrder
  import opened Aggregation

  datatype Date = Date(year: int, month: int, day: int)

  predicate IsLeapYear(y: int)
  {
    y % 4 == 0 && (y % 100 != 0 || y % 400 == 0)
  }

  function DaysInMonth(y: int, m: int): (n: int)
    requires 1 <= m <= 12
    ensures 28 <= n <= 31
  {
    if m == 2 then (if IsLeapYear(y) then 29 else 28)
    else if m == 4 || m == 6 || m == 9 || m == 11 then 30
    else 31
  }

  /** The dates a Python `date` can hold. */
  predicate ValidDate(d: Date)
  {
    && 1 <= d.year <= 9999
    && 1 <= d.month <= 12
    && 1 <= d.day <= DaysInMonth(d.year, d.month)
  }

  type CalendarDate = d: Date | ValidDate(d) witness Date(2025, 6, 1)

  /** `a <= b` on dates. */
  predicate OnOrBefore(a: Date, b: Date)
  {
    || a.year < b.year
    || (a.year == b.year && a.month < b.month)
    || (a.year == b.year && a.month == b.month && a.day <= b.day)
  }

  /** The calendar month of `a` is earlier than that of `b`. */
  predicate MonthBefore(a: Date, b: Date)
  {
    a.year < b.year || (a.year == b.year && a.month < b.month)
  }

  predicate SameMonth(a: Date, b: Date)
  {
    a.year == b.year && a.month == b.month
  }

  datatype Expense = Expense(category: string, amount: real, description: string, date: CalendarDate)

  datatype Income = Income(source: string, amount: real, description: string,
                           date: CalendarDate, isRecurring: bool)

  function ExpenseAmounts(es: seq<Expense>): (xs: seq<real>)
    ensures |xs| == |es|
  {
    seq(|es|, i requires 0 <= i < |es| => es[i].amount)
  }

  function IncomeAmounts(ins: seq<Income>): (xs: seq<real>)
    ensures |xs| == |ins|
  {
    seq(|ins|, i requires 0 <= i < |ins| => ins[i].amount)
  }

  /** `sum(exp.amount for exp in expenses)`. */
  function TotalExpenses(es: seq<Expense>): real
  {
    Sum(ExpenseAmounts(es))
  }

  /** `sum(inc.amount for inc in incomes)`. */
  function TotalIncome(ins: seq<Income>): real
  {
    Sum(IncomeAmounts(ins))
  }

  /** (category, amount) for each expense, in order. */
  function ByCategory(es: seq<Expense>): (items: seq<(Key, real)>)
    ensures Values(items) == ExpenseAmounts(es)
  {
    seq(|es|, i requires 0 <= i < |es| => (es[i].category, es[i].amount))
  }

  /** (month key, amount) for each expense, in order. */
  function ExpensesByMonth(es: seq<Expense>): (items: seq<(Key, real)>)
    ensures Values(items) == ExpenseAmounts(es)
  {
    seq(|es|, i requires 0 <= i < |es| => (MonthKey(es[i].date), es[i].amount))
  }

  /** (source, amount) for each income, in order. */
  function BySource(ins: seq<Income>): (items: seq<(Key, real)>)
    ensures Values(items) == IncomeAmounts(ins)
  {
    seq(|ins|, i requires 0 <= i < |ins| => (ins[i].source, ins[i].amount))
  }

  /** (month key, amount) for each income, in order. */
  function IncomesByMonth(ins: seq<Income>): (items: seq<(Key, real)>)
    ensures Values(items) == IncomeAmounts(ins)
  {
    seq(|ins|, i requires 0 <= i < |ins| => (MonthKey(ins[i].date), ins[i].amount))
  }

  function DigitChar(d: int): char
    requires 0 <= d <= 9
  {
    (48 + d) as char
  }

  /** `str(n)` for a non-negative integer: decimal, no leading zeros. */
  function Decimal(n: nat): (s: string)
    ensures |s| >= 1
    ensures |s| == 1 <==> n < 10
  {
    if n < 10 then [DigitChar(n)] else Decimal(n / 10) + [DigitChar(n % 10)]
  }

  /** `f"{m:02d}"` for 0 <= m <= 99. */
  function TwoDigits(m: int): (s: string)
    requires 0 <= m <= 99
    ensures |s| == 2
  {
    [DigitChar(m / 10), DigitChar(m % 10)]
  }

  /** `f"{d.year}-{d.month:02d}"`, the bucket key of the insight engine and
      the dashboard. */
  function MonthKey(d: CalendarDate): string
  {
    Decimal(d.year) + ['-'] + TwoDigits(d.month)
  }

  lemma DigitOrder(a: int, b: int)
    requires 0 <= a <= 9 && 0 <= b <= 9
    ensures Less([DigitChar(a)], [DigitChar(b)]) <==> a < b
    ensures DigitChar(a) == DigitChar(b) <==> a == b
  {
    assert [DigitChar(a)][1..] == [] && [DigitChar(b)][1..] == [];
  }

  /** Two decimal numerals of the same length compare as the numbers do. */
  lemma {:induction false} DecimalOrder(a: nat, b: nat)
    requires |Decimal(a)| == |Decimal(b)|
    ensures Less(Decimal(a), Decimal(b)) <==> a < b
    ensures Decimal(a) == Decimal(b) <==> a == b
    decreases a
  {
    if a < 10 {
      DigitOrder(a, b);
    } else {
      DecimalOrder(a / 10, b / 10);
      DigitOrder(a % 10, b % 10);
      LessOfConcat(Decimal(a / 10), [DigitChar(a % 10)], Decimal(b / 10), [DigitChar(b % 10)]);
      assert [DigitChar(a % 10)] == [DigitChar(b % 10)] <==> a % 10 == b % 10;
      assert a == 10 * (a / 10) + a % 10 && b == 10 * (b / 10) + b % 10;
    }
  }

  lemma TwoDigitsOrder(a: int, b: int)
    requires 0 <= a <= 99 && 0 <= b <= 99
    ensures Less(TwoDigits(a), TwoDigits(b)) <==> a < b
    ensures TwoDigits(a) == TwoDigits(b) <==> a == b
  {
    DigitOrder(a / 10, b / 10);
    DigitOrder(a % 10, b % 10);
    LessOfConcat([DigitChar(a / 10)], [DigitChar(a % 10)], [DigitChar(b / 10)], [DigitChar(b % 10)]);
    assert TwoDigits(a) == [DigitChar(a / 10)] + [DigitChar(a % 10)];
    assert TwoDigits(b) == [DigitChar(b / 10)] + [DigitChar(b % 10)];
  }

  lemma FourDigitYear(y: nat)
    requires 1000 <= y <= 9999
    ensures |Decimal(y)| == 4
  {
    assert y / 10 / 10 / 10 < 10 && y / 10 / 10 >= 10 && y / 10 >= 10;
    assert |Decimal(y / 10 / 10)| == 2;
    assert |Decimal(y / 10)| == 3;
  }

  /** For four-digit years, comparing month keys as strings (what
      `sorted(...)` does) agrees with comparing the calendar months, and two
      keys are equal exactly for dates in the same month. */
  lemma MonthKeyOrder(a: CalendarDate, b: CalendarDate)
    requires 1000 <= a.year && 1000 <= b.year
    ensures Less(MonthKey(a), MonthKey(b)) <==> MonthBefore(a, b)
    ensures MonthKey(a) == MonthKey(b) <==> SameMonth(a, b)
  {
    FourDigitYear(a.year);
    FourDigitYear(b.year);
    DecimalOrder(a.year, b.year);
    TwoDigitsOrder(a.month, b.month);
    var sa, sb := ['-'] + TwoDigits(a.month), ['-'] + TwoDigits(b.month);
    assert MonthKey(a) == Decimal(a.year) + sa;
    assert MonthKey(b) == Decimal(b.year) + sb;
    LessOfConcat(Decimal(a.year), sa, Decimal(b.year), sb);
    LessOfConcat(['-'], TwoDigits(a.month), ['-'], TwoDigits(b.month));
    LessIrreflexive(['-']);
  }
}
