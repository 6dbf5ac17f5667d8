/** The dashboard: the savings card (`loadSavingsStats`), the month's totals, the expense-by-category
    chart and the 30-day income/expense chart. */
module Dashboard {
  import opened Wrappers
  import Seqs
  import opened Ledger
  import opened Allowance
  import Savings

  // ---------------------------------------------------------------------------------------------
  // The savings card

  /** The `savingsStats` state. */
  datatype SavingsStats = SavingsStats(
    dailyLimit: real,
    totalSaved: real,
    isOnTrack: bool,
    activeSavingsGoals: nat,
    remainingBudget: real,
    spentToday: real,
    baseDailyLimit: real)

  /** What the card shows after an exception: all zeros, and on track. */
  const RESET_STATS: SavingsStats := SavingsStats(0.0, 0.0, true, 0, 0.0, 0.0, 0.0)

  /** `t => month and year of t.date are today's` */
  function InMonthOf(today: Date): Transaction -> bool
  {
    (t: Transaction) => t.date.month == today.month && t.date.year == today.year
  }

  /** The current month's transactions, in list order. */
  function MonthOf(txs: seq<Transaction>, today: Date): seq<Transaction>
  {
    Seqs.Filter(txs, InMonthOf(today))
  }

  /** `savingsGoals?.reduce((sum, g) => sum + g.monthly_target, 0) || 0` over the active-goal query. */
  function GoalsTarget(activeGoals: Option<seq<Savings.SavingsGoal>>): real
  {
    if activeGoals.Some? then Seqs.SumBy(activeGoals.value, Savings.MonthlyTarget) else 0.0
  }

  /** `savingsTransactions?.reduce(...) || 0` over the month's deposit query. */
  function DepositsTotal(monthDeposits: Option<seq<Savings.SavingsTransaction>>): real
  {
    if monthDeposits.Some? then Seqs.SumBy(monthDeposits.value, Savings.Saved) else 0.0
  }

  /** The dashboard's on-track test: the deposits reach the savings target pro-rated to today, and
      the month's spending stays within the available budget pro-rated to today. */
  function OnPace(totalSaved: real, target: real, totalExpenses: real, available: real, day: int, daysInMonth: int): (b: bool)
    requires daysInMonth > 0
    ensures b <==> totalSaved * (daysInMonth as real) >= target * (day as real)
                   && totalExpenses * (daysInMonth as real) <= available * (day as real)
  {
    var expectedSaved := target * (day as real) / daysInMonth as real;
    Savings.DivLeIff(target * (day as real), daysInMonth as real, totalSaved);
    Savings.DivLeIff(available * (day as real), daysInMonth as real, totalExpenses);
    Ge(totalExpenses, available * (day as real), daysInMonth as real);
    totalSaved >= expectedSaved && totalExpenses <= available * (day as real) / daysInMonth as real
  }

  /** `y <= x / k` exactly when `y * k <= x`, for a positive `k`. */
  lemma Ge(y: real, x: real, k: real)
    requires k > 0.0
    ensures y <= x / k <==> y * k <= x
  {
    var q := x / k;
    assert x == q * k;
    if y <= q {
      LeMul(y, q, k);
    } else {
      Savings.PosMul(y - q, k);
      assert (y - q) * k == y * k - q * k;
    }
  }

  /** `loadSavingsStats` for the date `today`. `txs` is the dashboard's transaction list;
      `activeGoals`, `settingsRow` and `monthDeposits` are what the three queries returned
      (`None` for nothing); `threw` says whether one of the awaited calls raised. */
  function LoadSavingsStats(today: Date, txs: seq<Transaction>, activeGoals: Option<seq<Savings.SavingsGoal>>,
                            settingsRow: Option<SettingsRow>, monthDeposits: Option<seq<Savings.SavingsTransaction>>,
                            threw: bool): (st: SavingsStats)
    requires ValidDate(today)
    ensures threw ==> st == RESET_STATS
    ensures !threw ==> st.totalSaved == DepositsTotal(monthDeposits)
    ensures !threw ==> st.activeSavingsGoals == if activeGoals.Some? then |activeGoals.value| else 0
    ensures !threw ==> st.spentToday == Seqs.SumBy(Seqs.Filter(txs, Savings.ExpenseOn(today)), Amount)
    ensures !threw ==> st.dailyLimit == Compute(Available(Defaulted(settingsRow), GoalsTarget(activeGoals)),
                                                TotalOf(MonthOf(txs, today), Expense),
                                                DaysInMonth(today.year, today.month), today.day).dailyLimit
    ensures !threw ==> 0.0 <= st.dailyLimit <= st.baseDailyLimit && st.remainingBudget >= 0.0
    ensures !threw ==> var a := Compute(Available(Defaulted(settingsRow), GoalsTarget(activeGoals)),
                                        TotalOf(MonthOf(txs, today), Expense),
                                        DaysInMonth(today.year, today.month), today.day);
                       st.baseDailyLimit == a.baseDailyLimit && st.remainingBudget == a.remainingBudget
    ensures !threw ==> st.isOnTrack == OnPace(st.totalSaved, GoalsTarget(activeGoals), TotalOf(MonthOf(txs, today), Expense),
                                              Available(Defaulted(settingsRow), GoalsTarget(activeGoals)),
                                              today.day, DaysInMonth(today.year, today.month))
  {
    if threw then RESET_STATS
    else
      var dim := DaysInMonth(today.year, today.month);
      var target := GoalsTarget(activeGoals);
      var totalSaved := DepositsTotal(monthDeposits);
      var available := Available(Defaulted(settingsRow), target);
      var totalExpenses := TotalOf(MonthOf(txs, today), Expense);
      var a := Compute(available, totalExpenses, dim, today.day);
      var isOnTrack := OnPace(totalSaved, target, totalExpenses, available, today.day, dim);
      var spentToday := Seqs.SumBy(Seqs.Filter(txs, Savings.ExpenseOn(today)), Amount);
      SavingsStats(a.dailyLimit, totalSaved, isOnTrack, if activeGoals.Some? then |activeGoals.value| else 0,
                   a.remainingBudget, spentToday, a.baseDailyLimit)
  }

  /** The dashboard's card for the month of `today`, fed the same queries as the savings page. */
  function DashboardCard(today: Date, txs: seq<Transaction>, goals: seq<Savings.SavingsGoal>,
                         settingsRow: Option<SettingsRow>, savings: seq<Savings.SavingsTransaction>): SavingsStats
    requires ValidDate(today)
  {
    LoadSavingsStats(today, txs, Some(Seqs.Filter(goals, Savings.IsActive)), settingsRow,
                     Some(Seqs.Filter(savings, Savings.IsDeposit)), false)
  }

  /** The savings page's figures for the month of `today`. */
  function SavingsPage(today: Date, txs: seq<Transaction>, goals: seq<Savings.SavingsGoal>,
                       settingsRow: Option<SettingsRow>, savings: seq<Savings.SavingsTransaction>): Savings.MonthlyStats
    requires ValidDate(today)
  {
    Savings.MonthlyStatsOf(today, Some(MonthOf(txs, today)), Some(savings), goals, Defaulted(settingsRow))
  }

  /** Fed the same month, goals, settings and deposits, the dashboard and the savings page show
      the same daily limit and the same deposits. */
  lemma DashboardAgreesWithSavingsPage(today: Date, txs: seq<Transaction>, goals: seq<Savings.SavingsGoal>,
                                       settingsRow: Option<SettingsRow>, savings: seq<Savings.SavingsTransaction>)
    requires ValidDate(today)
    ensures DashboardCard(today, txs, goals, settingsRow, savings).dailyLimit
         == SavingsPage(today, txs, goals, settingsRow, savings).dailyLimit
    ensures DashboardCard(today, txs, goals, settingsRow, savings).totalSaved
         == SavingsPage(today, txs, goals, settingsRow, savings).totalSaved
  {
    assert GoalsTarget(Some(Seqs.Filter(goals, Savings.IsActive))) == Savings.SavingsTarget(goals);
  }

  /** Whenever the savings page says "on track" with a non-negative budget, so does the dashboard:
      the savings page's spending test (the daily limit times the days elapsed) is never looser
      than the dashboard's (the available budget pro-rated). */
  lemma SavingsPageStricterThanDashboard(today: Date, txs: seq<Transaction>, goals: seq<Savings.SavingsGoal>,
                                         settingsRow: Option<SettingsRow>, savings: seq<Savings.SavingsTransaction>)
    requires ValidDate(today)
    requires Available(Defaulted(settingsRow), Savings.SavingsTarget(goals)) >= 0.0
    ensures SavingsPage(today, txs, goals, settingsRow, savings).isOnTrack
            ==> DashboardCard(today, txs, goals, settingsRow, savings).isOnTrack
  {
    var page := SavingsPage(today, txs, goals, settingsRow, savings);
    var dash := DashboardCard(today, txs, goals, settingsRow, savings);
    var dim := DaysInMonth(today.year, today.month);
    var target := Savings.SavingsTarget(goals);
    var available := Available(Defaulted(settingsRow), target);
    assert dash.isOnTrack == OnPace(page.totalSaved, target, page.totalExpenses, available, today.day, dim) by {
      DashboardAgreesWithSavingsPage(today, txs, goals, settingsRow, savings);
      assert GoalsTarget(Some(Seqs.Filter(goals, Savings.IsActive))) == target;
      assert TotalOf(MonthOf(txs, today), Expense) == page.totalExpenses;
    }
    OnTrackImpliesOnPace(page, dash, target, available, today.day, dim);
  }

  /** For any savings-page figures and dashboard card computed from the same savings target and
      available budget on the same day, the page's on-track verdict implies the card's. */
  lemma OnTrackImpliesOnPace(page: Savings.MonthlyStats, dash: SavingsStats, target: real, available: real, day: int, daysInMonth: int)
    requires 1 <= day <= daysInMonth && available >= 0.0
    requires page.daysRemaining == daysInMonth - day + 1
    requires page.isOnTrack == Savings.IsOnTrack(page.totalExpenses, page.dailyLimit, page.totalSaved, target, page.daysRemaining, daysInMonth)
    requires page.dailyLimit == Compute(available, page.totalExpenses, daysInMonth, day).dailyLimit
    requires dash.isOnTrack == OnPace(page.totalSaved, target, page.totalExpenses, available, day, daysInMonth)
    ensures page.isOnTrack ==> dash.isOnTrack
  {
    if page.isOnTrack {
      PageImpliesPace(page.totalExpenses, page.dailyLimit, page.totalSaved, target, available, day, daysInMonth);
    }
  }

  /** The step behind `OnTrackImpliesOnPace`, on the figures alone. */
  lemma PageImpliesPace(spent: real, dl: real, saved: real, target: real, available: real, day: int, daysInMonth: int)
    requires 1 <= day <= daysInMonth && available >= 0.0
    requires dl == Compute(available, spent, daysInMonth, day).dailyLimit
    requires Savings.IsOnTrack(spent, dl, saved, target, daysInMonth - day + 1, daysInMonth)
    ensures OnPace(saved, target, spent, available, day, daysInMonth)
  {
    OnTrackFacts(spent, dl, saved, target, day, daysInMonth - day + 1, daysInMonth);
    SpendingWithinPace(spent, dl, available, day, daysInMonth);
    PaceOf(saved, target, spent, available, day, daysInMonth);
  }

  /** Spending within today's limit for the days elapsed keeps within the available budget
      pro-rated to those days. */
  lemma SpendingWithinPace(spent: real, dl: real, available: real, day: int, daysInMonth: int)
    requires 1 <= day <= daysInMonth && available >= 0.0
    requires dl == Compute(available, spent, daysInMonth, day).dailyLimit
    requires spent <= dl * (day as real)
    ensures spent * (daysInMonth as real) <= available * (day as real)
  {
    var a := Compute(available, spent, daysInMonth, day);
    BaseSpreadsAvailable(available, spent, daysInMonth, day);
    PaceFromDailyLimit(spent, dl, a.baseDailyLimit, available, day, daysInMonth);
  }

  /** With a non-negative available budget, the base limit over the whole month is that budget. */
  lemma BaseSpreadsAvailable(available: real, spent: real, daysInMonth: int, day: int)
    requires 1 <= day <= daysInMonth && available >= 0.0
    ensures Compute(available, spent, daysInMonth, day).baseDailyLimit * (daysInMonth as real) == available
  {
    assert Max(0.0, available) == available;
  }

  /** The savings page's on-track test, in multiplied form, for the day `day`. */
  lemma OnTrackFacts(spent: real, dailyLimit: real, saved: real, target: real, day: int, daysRemaining: int, daysInMonth: int)
    requires 1 <= daysRemaining <= daysInMonth && day == daysInMonth - daysRemaining + 1
    requires Savings.IsOnTrack(spent, dailyLimit, saved, target, daysRemaining, daysInMonth)
    ensures spent <= dailyLimit * (day as real) && saved * (daysInMonth as real) >= target * (day as real)
  {
  }

  /** The dashboard's test, from its two multiplied comparisons. */
  lemma PaceOf(saved: real, target: real, spent: real, available: real, day: int, daysInMonth: int)
    requires daysInMonth > 0
    requires saved * (daysInMonth as real) >= target * (day as real)
    requires spent * (daysInMonth as real) <= available * (day as real)
    ensures OnPace(saved, target, spent, available, day, daysInMonth)
  {
  }

  /** Spending within the daily limit for the days elapsed keeps it within the available budget
      pro-rated to those days, since the limit never exceeds the base limit. */
  lemma PaceFromDailyLimit(spent: real, dailyLimit: real, baseDailyLimit: real, available: real, day: int, daysInMonth: int)
    requires 0 < day && 0 < daysInMonth
    requires dailyLimit <= baseDailyLimit && baseDailyLimit * (daysInMonth as real) == available
    requires spent <= dailyLimit * (day as real)
    ensures spent * (daysInMonth as real) <= available * (day as real)
  {
    var d, m := day as real, daysInMonth as real;
    LeMul(dailyLimit, baseDailyLimit, d);
    LeMul(spent, baseDailyLimit * d, m);
    assert baseDailyLimit * d * m == baseDailyLimit * m * d;
  }

  // ---------------------------------------------------------------------------------------------
  // The month's totals

  /** `totalIncome`, `totalExpenses` and `balance` over the current month's transactions. */
  function MonthTotals(txs: seq<Transaction>, today: Date): (t: Totals)
    ensures t.totalIncome == TotalOf(MonthOf(txs, today), Income)
    ensures t.totalExpenses == TotalOf(MonthOf(txs, today), Expense)
    ensures t.balance == Seqs.SumBy(MonthOf(txs, today), Signed)
  {
    TotalsOf(MonthOf(txs, today))
  }

  // ---------------------------------------------------------------------------------------------
  // Expenses by category

  /** One slice of the category chart. */
  datatype CategorySlice = CategorySlice(name: string, value: real, budget: real)

  predicate IsExpenseCategory(c: Category)
  {
    c.kind == Expense
  }

  /** `t => t.type === "expense" && t.category === name` */
  function ExpenseIn(name: string): Transaction -> bool
  {
    (t: Transaction) => t.kind == Expense && t.category == name
  }

  /** The slice of one category: its expenses this month, and its limit or 0. */
  function SliceOf(c: Category, month: seq<Transaction>): CategorySlice
  {
    CategorySlice(c.name, Seqs.SumBy(Seqs.Filter(month, ExpenseIn(c.name)), Amount), c.budgetLimit.GetOr(0.0))
  }

  predicate HasSpending(s: CategorySlice)
  {
    s.value > 0.0
  }

  /** `expensesByCategory`: expense categories in list order, mapped to slices, the empty ones dropped. */
  function ExpensesByCategory(categories: seq<Category>, month: seq<Transaction>): seq<CategorySlice>
  {
    var expenseCategories := Seqs.Filter(categories, IsExpenseCategory);
    var slices := seq(|expenseCategories|, i requires 0 <= i < |expenseCategories| => SliceOf(expenseCategories[i], month));
    Seqs.Filter(slices, HasSpending)
  }

  /** The chart has a slice exactly for each expense category that has spending this month. */
  lemma ExpensesByCategorySpec(categories: seq<Category>, month: seq<Transaction>)
    ensures var slices := ExpensesByCategory(categories, month);
      && (forall s :: s in slices ==> s.value > 0.0)
      && (forall s :: s in slices ==> exists c :: c in categories && c.kind == Expense && s == SliceOf(c, month))
      && (forall c :: c in categories && c.kind == Expense && SliceOf(c, month).value > 0.0 ==> SliceOf(c, month) in slices)
  {
    var expenseCategories := Seqs.Filter(categories, IsExpenseCategory);
    var all := seq(|expenseCategories|, i requires 0 <= i < |expenseCategories| => SliceOf(expenseCategories[i], month));
    assert ExpensesByCategory(categories, month) == Seqs.Filter(all, HasSpending);
    forall s | s in Seqs.Filter(all, HasSpending)
      ensures exists c :: c in categories && c.kind == Expense && s == SliceOf(c, month)
    {
      var i :| 0 <= i < |all| && all[i] == s;
      assert expenseCategories[i] in expenseCategories;
    }
    forall c | c in categories && c.kind == Expense && SliceOf(c, month).value > 0.0
      ensures SliceOf(c, month) in Seqs.Filter(all, HasSpending)
    {
      var i :| 0 <= i < |expenseCategories| && expenseCategories[i] == c;
      assert all[i] == SliceOf(c, month);
    }
  }

  /** The chart keeps the categories' list order: one more category at the end adds its slice at
      the end, exactly when it is an expense category with spending, and changes nothing else. */
  lemma ExpensesByCategorySnoc(categories: seq<Category>, c: Category, month: seq<Transaction>)
    ensures ExpensesByCategory(categories + [c], month)
         == ExpensesByCategory(categories, month)
            + (if c.kind == Expense && SliceOf(c, month).value > 0.0 then [SliceOf(c, month)] else [])
  {
    var e1 := Seqs.Filter(categories, IsExpenseCategory);
    var e2 := Seqs.Filter([c], IsExpenseCategory);
    Seqs.FilterAppend(categories, [c], IsExpenseCategory);
    var s1 := seq(|e1|, i requires 0 <= i < |e1| => SliceOf(e1[i], month));
    var s2 := seq(|e2|, i requires 0 <= i < |e2| => SliceOf(e2[i], month));
    var e := e1 + e2;
    assert seq(|e|, i requires 0 <= i < |e| => SliceOf(e[i], month)) == s1 + s2;
    Seqs.FilterAppend(s1, s2, HasSpending);
    if c.kind == Expense {
      assert e2 == [c];
      assert s2 == [SliceOf(c, month)];
    } else {
      assert e2 == [];
    }
  }

  // ---------------------------------------------------------------------------------------------
  // The 30-day chart

  /** One bar pair of the 30-day chart; `dayNumber` is the day it stands for. */
  datatype DayPoint = DayPoint(dayNumber: int, income: real, expenses: real)

  function DayKey(t: Transaction): int
  {
    DayNumber(t.date)
  }

  /** The point of day `d`: the transactions dated `d` (the one-day run from `d`), then split by type. */
  function PointFor(txs: seq<Transaction>, d: int): (p: DayPoint)
    ensures p.dayNumber == d
  {
    var dayTransactions := Seqs.Filter(txs, Seqs.KeyIn(DayKey, d, d + 1));
    DayPoint(d, TotalOf(dayTransactions, Income), TotalOf(dayTransactions, Expense))
  }

  function PointOf(txs: seq<Transaction>): int -> DayPoint
  {
    (d: int) => PointFor(txs, d)
  }

  /** The points of the `n` days from day `first`, oldest first. */
  function PointsFrom(txs: seq<Transaction>, first: int, n: nat): (pts: seq<DayPoint>)
    ensures |pts| == n
  {
    seq(n, i requires 0 <= i < n => PointOf(txs)(first + i))
  }

  /** `dailyData`: one point for each of the 30 days ending today, oldest first; `todayNumber` is
      `DayNumber` of today's date. */
  function DailyData(txs: seq<Transaction>, todayNumber: int): (pts: seq<DayPoint>)
    ensures |pts| == 30
  {
    PointsFrom(txs, todayNumber - 29, 30)
  }

  /** The points stand for consecutive days from `first`. */
  lemma PointsFromDays(txs: seq<Transaction>, first: int, n: nat)
    ensures forall i :: 0 <= i < n ==> PointsFrom(txs, first, n)[i].dayNumber == first + i
  {
    forall i | 0 <= i < n ensures PointsFrom(txs, first, n)[i].dayNumber == first + i {
      assert PointsFrom(txs, first, n)[i] == PointOf(txs)(first + i);
    }
  }

  /** The chart is the points of the run of days from `todayNumber - 29`, oldest first. */
  lemma DailyDataIsRun(txs: seq<Transaction>, todayNumber: int)
    ensures DailyData(txs, todayNumber) == Seqs.Tabulate(PointOf(txs), todayNumber - 29, 30)
  {
    Seqs.TabulateIsSeq(PointOf(txs), todayNumber - 29, 30);
  }

  /** The chart's points stand for consecutive days, the last of them today. */
  lemma DailyDataDays(txs: seq<Transaction>, todayNumber: int)
    ensures forall i :: 0 <= i < 30 ==> DailyData(txs, todayNumber)[i].dayNumber == todayNumber - (29 - i)
    ensures DailyData(txs, todayNumber)[29].dayNumber == todayNumber
  {
    PointsFromDays(txs, todayNumber - 29, 30);
  }

  function PointAmount(k: TxType): DayPoint -> real
  {
    (p: DayPoint) => if k == Income then p.income else p.expenses
  }

  /** Dated within `[lo, hi)` and of type `k`. */
  function InDaysOfKind(lo: int, hi: int, k: TxType): Transaction -> bool
  {
    (t: Transaction) => Seqs.KeyIn(DayKey, lo, hi)(t) && KindIs(k)(t)
  }

  /** Filtering by a run of days and by type, in either order. */
  lemma DaysThenKind(txs: seq<Transaction>, lo: int, hi: int, k: TxType)
    ensures Seqs.Filter(Seqs.Filter(txs, Seqs.KeyIn(DayKey, lo, hi)), KindIs(k))
         == Seqs.Filter(OfKind(txs, k), Seqs.KeyIn(DayKey, lo, hi))
  {
    forall t: Transaction ensures InDaysOfKind(lo, hi, k)(t) == (Seqs.KeyIn(DayKey, lo, hi)(t) && KindIs(k)(t)) {
    }
    Seqs.FilterFilter(txs, Seqs.KeyIn(DayKey, lo, hi), KindIs(k), InDaysOfKind(lo, hi, k));
    forall t: Transaction ensures InDaysOfKind(lo, hi, k)(t) == (KindIs(k)(t) && Seqs.KeyIn(DayKey, lo, hi)(t)) {
    }
    Seqs.FilterFilter(txs, KindIs(k), Seqs.KeyIn(DayKey, lo, hi), InDaysOfKind(lo, hi, k));
  }

  /** A point's bar of type `k` sums that day's transactions of type `k`. */
  lemma PointAmountIsDaySum(txs: seq<Transaction>, k: TxType, d: int)
    ensures PointAmount(k)(PointFor(txs, d)) == Seqs.DaySum(OfKind(txs, k), DayKey, Amount)(d)
  {
    var day := Seqs.Filter(txs, Seqs.KeyIn(DayKey, d, d + 1));
    var sameDay := Seqs.Filter(OfKind(txs, k), Seqs.KeyIn(DayKey, d, d + 1));
    assert PointAmount(k)(PointFor(txs, d)) == TotalOf(day, k);
    assert TotalOf(day, k) == Seqs.SumBy(Seqs.Filter(day, KindIs(k)), Amount);
    assert Seqs.Filter(day, KindIs(k)) == sameDay by {
      DaysThenKind(txs, d, d + 1, k);
    }
    Seqs.DaySumAt(OfKind(txs, k), DayKey, Amount, d);
  }

  /** The 30 income bars add up to the income of the 30 days ending today, and the 30 expense bars
      to those days' expenses. */
  lemma DailyDataTotals(txs: seq<Transaction>, todayNumber: int, k: TxType)
    ensures Seqs.SumBy(DailyData(txs, todayNumber), PointAmount(k))
         == TotalOf(Seqs.Filter(txs, Seqs.KeyIn(DayKey, todayNumber - 29, todayNumber + 1)), k)
  {
    var lo, hi := todayNumber - 29, todayNumber + 1;
    var perDay := Seqs.DaySum(OfKind(txs, k), DayKey, Amount);
    var bars := Seqs.SumBy(DailyData(txs, todayNumber), PointAmount(k));
    var days := Seqs.SumBy(Seqs.Tabulate(perDay, lo, 30), x => x);
    assert bars == days by {
      DailyDataIsRun(txs, todayNumber);
      forall d ensures PointAmount(k)(PointOf(txs)(d)) == perDay(d) {
        assert PointOf(txs)(d) == PointFor(txs, d);
        PointAmountIsDaySum(txs, k, d);
      }
      Seqs.SumTabulateMap(PointOf(txs), PointAmount(k), perDay, lo, 30);
    }
    assert days == Seqs.SumBy(Seqs.Filter(OfKind(txs, k), Seqs.KeyIn(DayKey, lo, hi)), Amount) by {
      Seqs.SumTabulate(OfKind(txs, k), DayKey, Amount, lo, 30);
      assert lo + 30 == hi;
    }
    DaysThenKind(txs, lo, hi, k);
  }
}
