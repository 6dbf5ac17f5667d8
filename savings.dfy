/** The savings page: the month's statistics card (totals, daily limit, on-track check and the
    reasons shown when off track) and the per-goal progress and months-to-target. */
module Savings {
  import opened Wrappers
  import Seqs
  import opened Ledger
  import opened Allowance

  /** A `savings_goals` row. */
  datatype SavingsGoal = SavingsGoal(id: string, title: string, targetAmount: real, monthlyTarget: real,
                                     currentAmount: real, isActive: bool)

  datatype SavingsKind = Deposit | Withdrawal

  /** A `savings_transactions` row. */
  datatype SavingsTransaction = SavingsTransaction(goalId: string, amount: real, kind: SavingsKind, date: Date)

  predicate IsActive(g: SavingsGoal)
  {
    g.isActive
  }

  function MonthlyTarget(g: SavingsGoal): real
  {
    g.monthlyTarget
  }

  predicate IsDeposit(t: SavingsTransaction)
  {
    t.kind == Deposit
  }

  function Saved(t: SavingsTransaction): real
  {
    t.amount
  }

  /** `totalSavingsTarget`: the monthly targets of the active goals. */
  function SavingsTarget(goals: seq<SavingsGoal>): real
  {
    Seqs.SumBy(Seqs.Filter(goals, IsActive), MonthlyTarget)
  }

  /** Inactive goals do not count towards the target. */
  lemma {:induction false} InactiveGoalAddsNothing(goals: seq<SavingsGoal>, g: SavingsGoal)
    requires !g.isActive
    ensures SavingsTarget(goals + [g]) == SavingsTarget(goals)
  {
    Seqs.FilterAppend(goals, [g], IsActive);
    assert [g][1..] == [];
    assert Seqs.Filter([g], IsActive) == [];
    assert Seqs.Filter(goals + [g], IsActive) == Seqs.Filter(goals, IsActive) + [];
    assert Seqs.Filter(goals, IsActive) + [] == Seqs.Filter(goals, IsActive);
  }

  /** `?.filter(...).reduce(...) || 0` over a month query that may have returned nothing. */
  function MonthTotal(txs: Option<seq<Transaction>>, k: TxType): real
  {
    if txs.Some? then TotalOf(txs.value, k) else 0.0
  }

  /** `totalSaved`: the deposits of the month; withdrawals are not subtracted. */
  function TotalSaved(savings: Option<seq<SavingsTransaction>>): real
  {
    if savings.Some? then Seqs.SumBy(Seqs.Filter(savings.value, IsDeposit), Saved) else 0.0
  }

  /** `t => t.date === today && t.type === "expense"` */
  function ExpenseOn(today: Date): Transaction -> bool
  {
    (t: Transaction) => t.date == today && t.kind == Expense
  }

  function SpentToday(txs: Option<seq<Transaction>>, today: Date): real
  {
    if txs.Some? then Seqs.SumBy(Seqs.Filter(txs.value, ExpenseOn(today)), Amount) else 0.0
  }

  /** The `monthlyStats` state of the page. */
  datatype MonthlyStats = MonthlyStats(
    totalIncome: real,
    totalExpenses: real,
    totalSaved: real,
    dailyLimit: real,
    daysRemaining: int,
    isOnTrack: bool,
    spentToday: real,
    remainingBudget: real,
    activeSavingsGoals: nat)

  /** The page's settings state: replaced by the loaded row (each field `|| 0`) when one was
      loaded, otherwise left as it was. */
  function LoadSettings(current: Settings, loaded: Option<SettingsRow>): (s: Settings)
    ensures loaded.None? ==> s == current
    ensures loaded.Some? ==> s == Defaulted(loaded)
  {
    if loaded.Some? then Defaulted(loaded) else current
  }

  /** `calculateMonthlyStats` for the date `today`. `monthTxs` and `monthSavings` are the results
      of the month's two queries (`None` when nothing came back); `goals` and `settings` are the
      page state the computation reads. */
  function MonthlyStatsOf(today: Date, monthTxs: Option<seq<Transaction>>, monthSavings: Option<seq<SavingsTransaction>>,
                          goals: seq<SavingsGoal>, settings: Settings): (st: MonthlyStats)
    requires ValidDate(today)
    ensures st.daysRemaining == DaysInMonth(today.year, today.month) - today.day + 1
    ensures 1 <= st.daysRemaining <= DaysInMonth(today.year, today.month)
    ensures st.totalIncome == MonthTotal(monthTxs, Income)
    ensures st.totalExpenses == MonthTotal(monthTxs, Expense)
    ensures st.totalSaved == TotalSaved(monthSavings)
    ensures st.spentToday == SpentToday(monthTxs, today)
    ensures st.activeSavingsGoals == |Seqs.Filter(goals, IsActive)|
    ensures st.dailyLimit == Compute(Available(settings, SavingsTarget(goals)), st.totalExpenses,
                                     DaysInMonth(today.year, today.month), today.day).dailyLimit
    ensures 0.0 <= st.dailyLimit
    ensures st.remainingBudget >= 0.0
    ensures st.remainingBudget >= Available(settings, SavingsTarget(goals)) - st.totalExpenses
    // on track: spending within the daily limit times the days elapsed (today included), and
    // deposits covering the savings target pro-rated to those days
    ensures st.isOnTrack == IsOnTrack(st.totalExpenses, st.dailyLimit, st.totalSaved, SavingsTarget(goals),
                                      st.daysRemaining, DaysInMonth(today.year, today.month))
  {
    var dim := DaysInMonth(today.year, today.month);
    var daysRemaining := dim - today.day + 1;
    var totalIncome := MonthTotal(monthTxs, Income);
    var totalExpenses := MonthTotal(monthTxs, Expense);
    var totalSaved := TotalSaved(monthSavings);
    var target := SavingsTarget(goals);
    var a := Compute(Available(settings, target), totalExpenses, dim, today.day);
    var isOnTrack := IsOnTrack(totalExpenses, a.dailyLimit, totalSaved, target, daysRemaining, dim);
    MonthlyStats(totalIncome, totalExpenses, totalSaved, a.dailyLimit, daysRemaining, isOnTrack,
                 SpentToday(monthTxs, today), a.remainingBudget, |Seqs.Filter(goals, IsActive)|)
  }

  /** `isOnTrack`: the average daily spending over the days elapsed (today included, counted from
      the days remaining) is within the daily limit, and the deposits reach the savings target
      pro-rated to those days. Stated without divisions. */
  function IsOnTrack(totalExpenses: real, dailyLimit: real, totalSaved: real, target: real,
                     daysRemaining: int, daysInMonth: int): (b: bool)
    requires 1 <= daysRemaining <= daysInMonth
    ensures var elapsed := daysInMonth - daysRemaining + 1;
      b <==> totalExpenses <= dailyLimit * (elapsed as real) && totalSaved * (daysInMonth as real) >= target * (elapsed as real)
  {
    var elapsed := daysInMonth - daysRemaining + 1;
    var dailySpentAverage := totalExpenses / elapsed as real;
    DivLeIff(totalExpenses, elapsed as real, dailyLimit);
    DivLeIff(target * (elapsed as real), daysInMonth as real, totalSaved);
    dailySpentAverage <= dailyLimit && totalSaved >= target * (elapsed as real) / daysInMonth as real
  }

  /** `x / k <= y` exactly when `x <= y * k`, for a positive `k`. */
  lemma DivLeIff(x: real, k: real, y: real)
    requires k > 0.0
    ensures x / k <= y <==> x <= y * k
  {
    var q := x / k;
    assert x == q * k;
    if q <= y {
      LeMul(q, y, k);
    } else {
      PosMul(q - y, k);
      assert (q - y) * k == q * k - y * k;
    }
  }

  lemma PosMul(a: real, k: real)
    requires a > 0.0 && k > 0.0
    ensures a * k > 0.0
  {
  }

  // ---------------------------------------------------------------------------------------------
  // The reasons listed under "Отклонение"

  datatype Reason =
    | OverDailyLimit     // "Превышен дневной лимит трат"
    | BehindSavingsPlan  // "Отстаем по плану накоплений"

  /** The reasons as the page lists them: both tests count the elapsed days against a 30-day
      month, whatever the month's real length. A zero divisor (the 1st of a 31-day month) gives
      the JavaScript quotient `Infinity` for positive spending and `NaN` for none. */
  function ReasonsAsWritten(st: MonthlyStats, savingsTarget: real): (r: seq<Reason>)
    ensures st.isOnTrack ==> r == []
    ensures |r| <= 2
  {
    if st.isOnTrack then []
    else
      var elapsed30 := 30 - st.daysRemaining + 1;
      var over := if elapsed30 == 0 then st.totalExpenses > 0.0
                  else st.totalExpenses / elapsed30 as real > st.dailyLimit;
      var behind := st.totalSaved < savingsTarget * (elapsed30 as real) / 30.0;
      (if over then [OverDailyLimit] else []) + (if behind then [BehindSavingsPlan] else [])
  }

  /** The reasons with the elapsed days counted in the month's own length, the count the on-track
      check itself uses. */
  function Reasons(st: MonthlyStats, savingsTarget: real, daysInMonth: int): (r: seq<Reason>)
    requires 1 <= st.daysRemaining <= daysInMonth
    ensures st.isOnTrack ==> r == []
    ensures |r| <= 2
  {
    if st.isOnTrack then []
    else
      var elapsed := (daysInMonth - st.daysRemaining + 1) as real;
      var over := st.totalExpenses / elapsed > st.dailyLimit;
      var behind := st.totalSaved < savingsTarget * elapsed / daysInMonth as real;
      (if over then [OverDailyLimit] else []) + (if behind then [BehindSavingsPlan] else [])
  }

  /** With the month's own length, a reason is listed exactly when the card reads "off track",
      and each listed reason is one of the two halves of the on-track test that failed. Holds for
      every `MonthlyStatsOf` result, whose `isOnTrack` is `IsOnTrack` of its own fields. */
  lemma ReasonsExplainDeviation(st: MonthlyStats, savingsTarget: real, daysInMonth: int)
    requires 1 <= st.daysRemaining <= daysInMonth
    requires st.isOnTrack == IsOnTrack(st.totalExpenses, st.dailyLimit, st.totalSaved, savingsTarget, st.daysRemaining, daysInMonth)
    ensures var r := Reasons(st, savingsTarget, daysInMonth);
      var elapsed := (daysInMonth - st.daysRemaining + 1) as real;
      && (r != [] <==> !st.isOnTrack)
      && (OverDailyLimit in r <==> !st.isOnTrack && st.totalExpenses > st.dailyLimit * elapsed)
      && (BehindSavingsPlan in r <==> !st.isOnTrack && st.totalSaved * (daysInMonth as real) < savingsTarget * elapsed)
  {
    var elapsed := (daysInMonth - st.daysRemaining + 1) as real;
    DivLeIff(st.totalExpenses, elapsed, st.dailyLimit);
    DivLeIff(savingsTarget * elapsed, daysInMonth as real, st.totalSaved);
  }

  /** On 1 February 2026 (28 days), with an income target of 56, nothing else planned and 3 spent:
      the card reads "off track" but the as-written tests (3/3 against a limit of 53/28, and a
      zero savings target) list no reason at all, while the corrected tests list the spending. */
  lemma AsWrittenHidesDeviation()
    ensures var today := Date(2026, 2, 1);
      var txs := [Transaction("t1", 3.0, Expense, "Продукты", "", today, None, "u1")];
      var st := MonthlyStatsOf(today, Some(txs), Some([]), [], Settings(56.0, 0.0, 0.0));
      && !st.isOnTrack
      && ReasonsAsWritten(st, 0.0) == []
      && Reasons(st, 0.0, 28) == [OverDailyLimit]
  {
    var today := Date(2026, 2, 1);
    var t := Transaction("t1", 3.0, Expense, "Продукты", "", today, None, "u1");
    var txs := [t];
    assert DaysInMonth(2026, 2) == 28;
    assert txs[1..] == [];
    assert Seqs.Filter(txs, KindIs(Expense)) == [t];
    assert Seqs.SumBy([t], Amount) == 3.0;
    assert TotalOf(txs, Expense) == 3.0;
    assert Seqs.Filter([], IsActive) == [];
    assert SavingsTarget([]) == 0.0;
    var st := MonthlyStatsOf(today, Some(txs), Some([]), [], Settings(56.0, 0.0, 0.0));
    assert st.totalExpenses == 3.0;
    assert st.dailyLimit == 53.0 / 28.0;
  }

  // ---------------------------------------------------------------------------------------------
  // Goal cards

  /** `target_amount > 0 ? current_amount / target_amount * 100 : 0` */
  function GoalProgress(g: SavingsGoal): (p: real)
    ensures g.targetAmount <= 0.0 ==> p == 0.0
    ensures g.targetAmount > 0.0 ==> p * g.targetAmount == g.currentAmount * 100.0
    ensures g.targetAmount > 0.0 && 0.0 <= g.currentAmount ==> 0.0 <= p
    ensures g.targetAmount > 0.0 ==> (p >= 100.0 <==> g.currentAmount >= g.targetAmount)
  {
    if g.targetAmount > 0.0 then
      ProgressFacts(g.currentAmount, g.targetAmount);
      g.currentAmount / g.targetAmount * 100.0
    else 0.0
  }

  /** The percentage of `current` in a positive `target`, multiplied out, and its 100% mark. */
  lemma ProgressFacts(current: real, target: real)
    requires target > 0.0
    ensures var p := current / target * 100.0;
      && p * target == current * 100.0
      && (0.0 <= current ==> 0.0 <= p)
      && (p >= 100.0 <==> current >= target)
  {
    var q := current / target;
    assert q * target == current;
    assert (q * 100.0) * target == (q * target) * 100.0;
    assert q >= 1.0 <==> current >= target by {
      DivLeIff(target, target, current);
      assert target / target == 1.0;
    }
  }

  /** `Math.ceil(x)` */
  function Ceil(x: real): (c: int)
    ensures x <= c as real < x + 1.0
  {
    -((-x).Floor)
  }

  /** `monthly_target > 0 ? Math.ceil((target_amount - current_amount) / monthly_target) : 0` */
  function MonthsToTarget(g: SavingsGoal): (m: int)
    ensures g.monthlyTarget <= 0.0 ==> m == 0
  {
    if g.monthlyTarget > 0.0 then Ceil((g.targetAmount - g.currentAmount) / g.monthlyTarget) else 0
  }

  /** With a positive monthly target, the months shown are the fewest whose contributions cover
      the gap; a goal already reached shows no months left (zero or fewer). */
  lemma MonthsToTargetIsLeastCover(g: SavingsGoal)
    requires g.monthlyTarget > 0.0
    ensures var m := MonthsToTarget(g);
      && (m as real) * g.monthlyTarget >= g.targetAmount - g.currentAmount
      && ((m - 1) as real) * g.monthlyTarget < g.targetAmount - g.currentAmount
      && (g.currentAmount >= g.targetAmount ==> m <= 0)
  {
    var m := MonthsToTarget(g);
    var gap := g.targetAmount - g.currentAmount;
    var k := g.monthlyTarget;
    DivLeIff(gap, k, m as real);
    assert ((m - 1) as real) < gap / k;
    if ((m - 1) as real) * k >= gap {
      DivLeIff(gap, k, (m - 1) as real);
    }
  }
}
