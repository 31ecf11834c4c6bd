/**
 * The financial rules of the dashboard service: the health-score ladder, the
 * current-month window, the trend arrays padded with zeros, the savings-goal
 * counts and the risk-level mappings behind investment advice and product
 * recommendation. Database queries are replaced by their results, passed in
 * as parameters, and "today" is a parameter too.
 */
module Services {
  import opened Wrappers
  import opened PyText

  // ---------------------------------------------------------------------
  // calculate_health_score
  // ---------------------------------------------------------------------

  /** Savings rate in percent; 0 unless the income is positive. */
  function SavingsRate(income: real, balance: real): real
  {
    if income > 0.0 then (balance / income) * 100.0 else 0.0
  }

  /** Expense ratio; 0 unless the income is positive. */
  function ExpenseRatio(income: real, expense: real): real
  {
    if income > 0.0 then expense / income else 0.0
  }

  /** The points the savings rate earns: +30, +20 or +10 above 20, 10 or 5 percent. */
  function SavingsPoints(rate: real): int
  {
    if rate > 20.0 then 30 else if rate > 10.0 then 20 else if rate > 5.0 then 10 else 0
  }

  /** The points the expense ratio costs: -20 above 0.9, -10 above 0.8. */
  function ExpensePenalty(ratio: real): int
  {
    if ratio > 0.9 then 20 else if ratio > 0.8 then 10 else 0
  }

  /** `max(lo, min(hi, x))`. */
  function ClampInt(x: int, lo: int, hi: int): int
  {
    if lo >= (if hi <= x then hi else x) then lo else (if hi <= x then hi else x)
  }

  /** `calculate_health_score`. */
  function HealthScore(income: real, expense: real, balance: real): (score: int)
    ensures 0 <= score <= 100
  {
    if income == 0.0 then 0
    else ClampInt(50 + SavingsPoints(SavingsRate(income, balance)) - ExpensePenalty(ExpenseRatio(income, expense)), 0, 100)
  }

  /** No income scores 0; negative income leaves both ratios at 0 and scores 50. */
  lemma HealthScoreNoPositiveIncome(income: real, expense: real, balance: real)
    requires income <= 0.0
    ensures income == 0.0 ==> HealthScore(income, expense, balance) == 0
    ensures income < 0.0 ==> HealthScore(income, expense, balance) == 50
  {
  }

  /**
   * With a non-zero income the ladder stays within [30, 80], so the final
   * clamp to [0, 100] never binds.
   */
  lemma HealthScoreBounds(income: real, expense: real, balance: real)
    requires income != 0.0
    ensures 30 <= HealthScore(income, expense, balance) <= 80
    ensures HealthScore(income, expense, balance)
            == 50 + SavingsPoints(SavingsRate(income, balance)) - ExpensePenalty(ExpenseRatio(income, expense))
  {
  }

  /**
   * For a positive income the thresholds are thresholds on the amounts:
   * the top score 80 is reached exactly when the balance exceeds a fifth of
   * the income and the expense is at most 0.8 of it, and the bottom score 30
   * exactly when the balance is at most 5 percent of the income and the
   * expense above 0.9 of it.
   */
  lemma HealthScoreExtremes(income: real, expense: real, balance: real)
    requires income > 0.0
    ensures HealthScore(income, expense, balance) == 80 <==> balance > 0.2 * income && expense <= 0.8 * income
    ensures HealthScore(income, expense, balance) == 30 <==> balance <= 0.05 * income && expense > 0.9 * income
  {
    RateThresholds(income, balance);
    RatioThresholds(income, expense);
  }

  /** Dividing by a positive amount keeps the comparison. */
  lemma DivCompare(x: real, k: real, c: real)
    requires k > 0.0
    ensures x / k > c <==> x > c * k
  {
    var q := x / k;
    assert q * k == x;
    if q > c {
      assert (q - c) * k > 0.0;
      assert x - c * k == (q - c) * k;
    } else {
      assert (c - q) * k >= 0.0;
      assert c * k - x == (c - q) * k;
    }
  }

  lemma RateThresholds(income: real, balance: real)
    requires income > 0.0
    ensures SavingsRate(income, balance) > 20.0 <==> balance > 0.2 * income
    ensures SavingsRate(income, balance) > 10.0 <==> balance > 0.1 * income
    ensures SavingsRate(income, balance) > 5.0 <==> balance > 0.05 * income
  {
    DivCompare(balance, income, 0.2);
    DivCompare(balance, income, 0.1);
    DivCompare(balance, income, 0.05);
  }

  lemma RatioThresholds(income: real, expense: real)
    requires income > 0.0
    ensures ExpenseRatio(income, expense) > 0.9 <==> expense > 0.9 * income
    ensures ExpenseRatio(income, expense) > 0.8 <==> expense > 0.8 * income
  {
    DivCompare(expense, income, 0.9);
    DivCompare(expense, income, 0.8);
  }

  /** A larger balance never lowers the score, and a larger expense never raises it. */
  lemma HealthScoreMonotone(income: real, expense1: real, expense2: real, balance1: real, balance2: real)
    requires income > 0.0 && balance1 <= balance2 && expense2 <= expense1
    ensures HealthScore(income, expense1, balance1) <= HealthScore(income, expense2, balance2)
  {
    RateThresholds(income, balance1);
    RateThresholds(income, balance2);
    RatioThresholds(income, expense1);
    RatioThresholds(income, expense2);
  }

  // ---------------------------------------------------------------------
  // Dates: get_current_month_range and the trend windows
  // ---------------------------------------------------------------------

  /** A proleptic Gregorian date, as Python's `date`. */
  datatype Date = Date(year: int, month: int, day: int)
  {
    predicate Valid()
    {
      1 <= year <= MaxYear && 1 <= month <= 12 && 1 <= day <= DaysInMonth(year, month)
    }
  }

  /** `date.max.year`. */
  const MaxYear := 9999

  predicate IsLeap(y: int)
  {
    y % 4 == 0 && (y % 100 != 0 || y % 400 == 0)
  }

  function DaysInMonth(y: int, m: int): (d: int)
    ensures 28 <= d <= 31
    ensures m == 12 ==> d == 31
  {
    if m == 2 then (if IsLeap(y) then 29 else 28)
    else if m == 4 || m == 6 || m == 9 || m == 11 then 30
    else 31
  }

  /** The day after, or None past `date.max`. */
  function NextDay(d: Date): (r: Option<Date>)
    requires d.Valid()
    ensures r.Some? ==> r.value.Valid()
    ensures r.None? <==> d == Date(MaxYear, 12, 31)
  {
    if d.day < DaysInMonth(d.year, d.month) then Some(Date(d.year, d.month, d.day + 1))
    else if d.month < 12 then Some(Date(d.year, d.month + 1, 1))
    else if d.year < MaxYear then Some(Date(d.year + 1, 1, 1))
    else None
  }

  /** The day before, or None before `date.min`. */
  function PrevDay(d: Date): (r: Option<Date>)
    requires d.Valid()
    ensures r.Some? ==> r.value.Valid()
    ensures r.None? <==> d == Date(1, 1, 1)
  {
    if d.day > 1 then Some(Date(d.year, d.month, d.day - 1))
    else if d.month > 1 then Some(Date(d.year, d.month - 1, DaysInMonth(d.year, d.month - 1)))
    else if d.year > 1 then Some(Date(d.year - 1, 12, 31))
    else None
  }

  /** `d + timedelta(days=n)`; None where Python raises OverflowError. */
  function AddDays(d: Date, n: nat): (r: Option<Date>)
    requires d.Valid()
    ensures r.Some? ==> r.value.Valid()
    decreases n
  {
    if n == 0 then Some(d)
    else match NextDay(d)
      case None => None
      case Some(e) => AddDays(e, n - 1)
  }

  /** `d - timedelta(days=n)`; None where Python raises OverflowError. */
  function SubDays(d: Date, n: nat): (r: Option<Date>)
    requires d.Valid()
    ensures r.Some? ==> r.value.Valid()
    decreases n
  {
    if n == 0 then Some(d)
    else match PrevDay(d)
      case None => None
      case Some(e) => SubDays(e, n - 1)
  }

  lemma {:induction false} AddDaysWithinMonth(d: Date, n: nat)
    requires d.Valid() && d.day + n <= DaysInMonth(d.year, d.month)
    ensures AddDays(d, n) == Some(Date(d.year, d.month, d.day + n))
    decreases n
  {
    if n > 0 {
      AddDaysWithinMonth(Date(d.year, d.month, d.day + 1), n - 1);
    }
  }

  lemma {:induction false} SubDaysWithinMonth(d: Date, n: nat)
    requires d.Valid() && n < d.day
    ensures SubDays(d, n) == Some(Date(d.year, d.month, d.day - n))
    decreases n
  {
    if n > 0 {
      SubDaysWithinMonth(Date(d.year, d.month, d.day - 1), n - 1);
    }
  }

  /** The first day of the month after `(y, m)`, None after December 9999. */
  function FirstOfNextMonth(y: int, m: int): Option<Date>
  {
    if m < 12 then Some(Date(y, m + 1, 1))
    else if y < MaxYear then Some(Date(y + 1, 1, 1))
    else None
  }

  /**
   * The step the code relies on: from day 28, four days on always lands in
   * the next month, on day 32 minus the length of this month (1 to 4).
   */
  lemma Day28PlusFour(y: int, m: int)
    requires Date(y, m, 28).Valid()
    ensures var dim := DaysInMonth(y, m);
            AddDays(Date(y, m, 28), 4)
            == (if FirstOfNextMonth(y, m).None? then None
                else Some(Date(FirstOfNextMonth(y, m).value.year, FirstOfNextMonth(y, m).value.month, 32 - dim)))
  {
    var dim := DaysInMonth(y, m);
    var last := Date(y, m, dim);
    AddDaysWithinMonth(Date(y, m, 28), dim - 28);
    AddDaysSplit(Date(y, m, 28), dim - 28, 4 - (dim - 28));
    assert AddDays(last, 4 - (dim - 28)) == (match NextDay(last) case None => None case Some(e) => AddDays(e, 4 - (dim - 28) - 1));
    if FirstOfNextMonth(y, m).Some? {
      var first := FirstOfNextMonth(y, m).value;
      assert NextDay(last) == Some(first);
      AddDaysWithinMonth(first, 31 - dim);
    }
  }

  lemma {:induction false} AddDaysSplit(d: Date, a: nat, b: nat)
    requires d.Valid()
    ensures AddDays(d, a + b) == (match AddDays(d, a) case None => None case Some(e) => AddDays(e, b))
    decreases a
  {
    if a > 0 {
      match NextDay(d)
      case None =>
      case Some(e) => AddDaysSplit(e, a - 1, b);
    }
  }

  datatype DateError = Overflow

  /** `get_current_month_range`: `today.replace(day=1)`, then 28th + 4 days - (that day) days. */
  function MonthRange(today: Date): Result<(Date, Date), DateError>
    requires today.Valid()
  {
    var start := Date(today.year, today.month, 1);
    match AddDays(Date(today.year, today.month, 28), 4)
    case None => Err(Overflow)
    case Some(next) =>
      match SubDays(next, next.day)
      case None => Err(Overflow)
      case Some(end) => Ok((start, end))
  }

  /**
   * The range runs from day 1 to the last day of today's month; the one
   * failure is December 9999, where the 28th plus four days overflows.
   */
  lemma MonthRangeSpec(today: Date)
    requires today.Valid()
    ensures MonthRange(today).Err? <==> today.year == MaxYear && today.month == 12
    ensures MonthRange(today).Ok? ==>
              MonthRange(today).value
              == (Date(today.year, today.month, 1), Date(today.year, today.month, DaysInMonth(today.year, today.month)))
  {
    var y, m := today.year, today.month;
    var dim := DaysInMonth(y, m);
    Day28PlusFour(y, m);
    if FirstOfNextMonth(y, m).Some? {
      var first := FirstOfNextMonth(y, m).value;
      var next := Date(first.year, first.month, 32 - dim);
      SubDaysWithinMonth(next, next.day - 1);
      assert SubDays(next, next.day) == (match PrevDay(next) case None => None case Some(e) => SubDays(e, next.day - 1))
        by { assert next.day > 0; }
      SubDaysSplitLast(next);
      assert PrevDay(first) == Some(Date(y, m, dim));
    }
  }

  /** Stepping back `day` days from a date is one step back from the first of its month. */
  lemma {:induction false} SubDaysSplitLast(d: Date)
    requires d.Valid()
    ensures SubDays(d, d.day) == PrevDay(Date(d.year, d.month, 1))
    decreases d.day
  {
    var prev := Date(d.year, d.month, d.day - 1);
    if d.day > 1 {
      assert PrevDay(d) == Some(prev);
      SubDaysSplitLast(prev);
      assert SubDays(d, d.day) == SubDays(prev, prev.day);
    } else {
      SubDaysOne(d);
    }
  }

  lemma SubDaysOne(d: Date)
    requires d.Valid()
    ensures SubDays(d, 1) == PrevDay(d)
  {
    match PrevDay(d)
    case None =>
    case Some(e) => assert SubDays(e, 0) == Some(e);
  }

  // ---------------------------------------------------------------------
  // get_analysis_trends: labels, window and zero padding
  // ---------------------------------------------------------------------

  datatype Period = Year | Month

  /** Any period other than 'year' is treated as 'month'. */
  function ParsePeriod(p: string): Period
  {
    if p == "year" then Year else Month
  }

  datatype Trend = Trend(
    start: Date, end: Date,
    dates: seq<string>, incomeData: seq<real>, expenseData: seq<real>)

  /** `[f'{i}{suffix}' for i in range(1, n + 1)]`. */
  function Labels(n: nat, suffix: string): (labels: seq<string>)
    ensures |labels| == n
    ensures forall i :: 0 <= i < n ==> labels[i] == NatToString(i + 1) + suffix
  {
    if n == 0 then [] else Labels(n - 1, suffix) + [NatToString(n) + suffix]
  }

  /** `[m.get(i + 1, 0.0) for i in range(n)]`. */
  function Padded(m: map<int, real>, n: nat): seq<real>
  {
    seq(n, i => if i + 1 in m then m[i + 1] else 0.0)
  }

  /**
   * `get_analysis_trends`. The two maps are the per-period sums the two
   * grouped queries return (period number to total).
   */
  function AnalysisTrends(period: string, today: Date, incomeMap: map<int, real>, expenseMap: map<int, real>)
    : Result<Trend, DateError>
    requires today.Valid()
  {
    match ParsePeriod(period)
    case Year =>
      var dates := Labels(12, "月");
      Ok(Trend(Date(today.year, 1, 1), Date(today.year, 12, 31), dates,
               Padded(incomeMap, |dates|), Padded(expenseMap, |dates|)))
    case Month =>
      match MonthRange(today)
      case Err(e) => Err(e)
      case Ok((start, end)) =>
        var dates := Labels(end.day, "日");
        Ok(Trend(start, end, dates, Padded(incomeMap, |dates|), Padded(expenseMap, |dates|)))
  }

  /** The data arrays run alongside the labels: period i + 1's total at i, and 0.0 where it has no data. */
  lemma PaddedSpec(m: map<int, real>, n: nat)
    ensures |Padded(m, n)| == n
    ensures forall i :: 0 <= i < n ==> Padded(m, n)[i] == (if i + 1 in m then m[i + 1] else 0.0)
  {
  }

  /** Year mode: twelve labels 1月 to 12月 over January 1 to December 31, with data arrays alongside. */
  lemma YearTrendSpec(today: Date, incomeMap: map<int, real>, expenseMap: map<int, real>)
    requires today.Valid()
    ensures var r := AnalysisTrends("year", today, incomeMap, expenseMap);
            && r.Ok?
            && r.value.start == Date(today.year, 1, 1) && r.value.end == Date(today.year, 12, 31)
            && |r.value.dates| == 12
            && (forall i :: 0 <= i < 12 ==> r.value.dates[i] == NatToString(i + 1) + "月")
            && r.value.incomeData == Padded(incomeMap, 12) && r.value.expenseData == Padded(expenseMap, 12)
  {
  }

  /**
   * Month mode (any period but 'year'): one label per day of today's month
   * over that month, with data arrays alongside; December 9999 overflows.
   */
  lemma MonthTrendSpec(period: string, today: Date, incomeMap: map<int, real>, expenseMap: map<int, real>)
    requires today.Valid() && period != "year"
    ensures var r := AnalysisTrends(period, today, incomeMap, expenseMap);
            var n := DaysInMonth(today.year, today.month);
            && (r.Err? <==> today.year == MaxYear && today.month == 12)
            && (r.Ok? ==>
                  && r.value.start == Date(today.year, today.month, 1)
                  && r.value.end == Date(today.year, today.month, n)
                  && |r.value.dates| == n
                  && (forall i :: 0 <= i < n ==> r.value.dates[i] == NatToString(i + 1) + "日")
                  && r.value.incomeData == Padded(incomeMap, n) && r.value.expenseData == Padded(expenseMap, n))
  {
    MonthRangeSpec(today);
  }

  // ---------------------------------------------------------------------
  // get_savings_stats: the counting
  // ---------------------------------------------------------------------

  datatype Goal = Goal(currentAmount: real, targetAmount: real)

  predicate Completed(g: Goal) { g.currentAmount >= g.targetAmount }

  function TotalSavings(goals: seq<Goal>): real
  {
    if goals == [] then 0.0 else TotalSavings(goals[..|goals| - 1]) + goals[|goals| - 1].currentAmount
  }

  function ActiveGoals(goals: seq<Goal>): nat
  {
    if goals == [] then 0 else ActiveGoals(goals[..|goals| - 1]) + (if goals[|goals| - 1].currentAmount < goals[|goals| - 1].targetAmount then 1 else 0)
  }

  function CompletedGoals(goals: seq<Goal>): nat
  {
    if goals == [] then 0 else CompletedGoals(goals[..|goals| - 1]) + (if Completed(goals[|goals| - 1]) then 1 else 0)
  }

  /** `scalar() or 0`: a missing or zero sum reads as 0. */
  function OrZero(x: Option<real>): real
  {
    if x.Some? then x.value else 0.0
  }

  datatype SavingsStats = SavingsStats(totalSavings: real, activeGoals: nat, completedGoals: nat, monthlySavings: real)

  /** `get_savings_stats`; the two optional sums are the 30-day income and expense queries. */
  function GetSavingsStats(goals: seq<Goal>, monthlyIncome: Option<real>, monthlyExpense: Option<real>): SavingsStats
  {
    SavingsStats(TotalSavings(goals), ActiveGoals(goals), CompletedGoals(goals),
                 OrZero(monthlyIncome) - OrZero(monthlyExpense))
  }

  /** Every goal is either active or completed, never both. */
  lemma {:induction false} GoalsPartitioned(goals: seq<Goal>)
    ensures ActiveGoals(goals) + CompletedGoals(goals) == |goals|
    ensures CompletedGoals(goals) == |set i | 0 <= i < |goals| && Completed(goals[i])|
  {
    if goals != [] {
      var init := goals[..|goals| - 1];
      GoalsPartitioned(init);
      var n := |goals| - 1;
      var before := set i | 0 <= i < n && Completed(init[i]);
      var now := set i | 0 <= i < |goals| && Completed(goals[i]);
      assert before == set i | 0 <= i < n && Completed(goals[i]);
      if Completed(goals[n]) {
        assert now == before + {n};
      } else {
        assert now == before;
      }
    }
  }

  /** The total is additive over the goal list. */
  lemma {:induction false} TotalSavingsConcat(a: seq<Goal>, b: seq<Goal>)
    ensures TotalSavings(a + b) == TotalSavings(a) + TotalSavings(b)
  {
    if b == [] {
      assert a + b == a;
    } else {
      TotalSavingsConcat(a, b[..|b| - 1]);
      assert (a + b)[..|a + b| - 1] == a + b[..|b| - 1];
    }
  }

  /** The stats: counts partition the goals, and the 30-day savings treat a missing sum as 0. */
  lemma SavingsStatsSpec(goals: seq<Goal>, monthlyIncome: Option<real>, monthlyExpense: Option<real>)
    ensures var s := GetSavingsStats(goals, monthlyIncome, monthlyExpense);
            && s.activeGoals + s.completedGoals == |goals|
            && s.totalSavings == TotalSavings(goals)
            && (monthlyIncome.None? && monthlyExpense.None? ==> s.monthlySavings == 0.0)
            && (monthlyIncome.Some? && monthlyExpense.Some? ==> s.monthlySavings == monthlyIncome.value - monthlyExpense.value)
            && (monthlyIncome.Some? && monthlyExpense.None? ==> s.monthlySavings == monthlyIncome.value)
            && (monthlyIncome.None? && monthlyExpense.Some? ==> s.monthlySavings == -monthlyExpense.value)
  {
    GoalsPartitioned(goals);
  }

  // ---------------------------------------------------------------------
  // Risk-level mappings
  // ---------------------------------------------------------------------

  const Conservative := "保守型"
  const Balanced := "平衡型"

  /** The recommended product kinds and the investment style for a risk level. */
  datatype AdviceProfile = AdviceProfile(products: seq<string>, style: string)

  /** Used by both the streaming and the blocking investment advice. */
  function InvestmentProfile(riskLevel: string): (p: AdviceProfile)
    ensures riskLevel == Conservative ==> p == AdviceProfile(["deposit", "bond", "货币基金"], "保守稳健")
    ensures riskLevel == Balanced ==> p == AdviceProfile(["fund", "bond", "部分股票基金"], "平衡配置")
    ensures riskLevel != Conservative && riskLevel != Balanced ==> p == AdviceProfile(["fund", "stock", "混合投资"], "积极进取")
  {
    if riskLevel == Conservative then AdviceProfile(["deposit", "bond", "货币基金"], "保守稳健")
    else if riskLevel == Balanced then AdviceProfile(["fund", "bond", "部分股票基金"], "平衡配置")
    else AdviceProfile(["fund", "stock", "混合投资"], "积极进取")
  }

  /** The three styles are distinct, so the style tells the level's class back. */
  lemma InvestmentStyleDistinguishes(a: string, b: string)
    ensures InvestmentProfile(a).style == InvestmentProfile(b).style <==>
              (a == Conservative <==> b == Conservative) && (a == Balanced <==> b == Balanced)
  {
  }

  /** The product risk levels `get_recommended_products` allows; no profile allows `low` only. */
  function AllowedProductRisk(riskLevel: Option<string>): seq<string>
  {
    if riskLevel.None? then ["low"]
    else if riskLevel.value == Conservative then ["low"]
    else if riskLevel.value == Balanced then ["low", "medium"]
    else ["low", "medium", "high"]
  }

  /**
   * The allowed sets are nested: conservative, then balanced, then any other
   * level, each containing the previous; a missing profile is as conservative.
   */
  lemma AllowedProductRiskNested(other: string)
    requires other != Conservative && other != Balanced
    ensures AllowedProductRisk(None) == AllowedProductRisk(Some(Conservative)) == ["low"]
    ensures AllowedProductRisk(Some(Balanced)) == ["low", "medium"]
    ensures AllowedProductRisk(Some(other)) == ["low", "medium", "high"]
    ensures forall x :: x in AllowedProductRisk(Some(Conservative)) ==> x in AllowedProductRisk(Some(Balanced))
    ensures forall x :: x in AllowedProductRisk(Some(Balanced)) ==> x in AllowedProductRisk(Some(other))
  {
  }
}
