/** The reports page: the transactions of the selected period, their totals, the CSV export, the
    expense-by-category, month-by-month and day-by-day charts with the running balance, and the
    detail table ordered newest first. */
module Reports {
  import opened Wrappers
  import Seqs
  import opened Ledger
  import Tally
  import Text
  import opened Allowance
  import opened Periods

  /** `t => start <= new Date(t.date) && new Date(t.date) <= end` */
  function DatedIn(w: Window): Transaction -> bool
  {
    (t: Transaction) => InWindow(t.date, w)
  }

  /** `getFilteredTransactions`: the loaded transactions whose date lies in the period's window. */
  function Filtered(txs: seq<Transaction>, period: string, today: Date): (r: seq<Transaction>)
    requires ValidDate(today)
    ensures forall t :: t in r <==> t in txs && InWindow(t.date, ReportWindow(period, today))
  {
    Seqs.Filter(txs, DatedIn(ReportWindow(period, today)))
  }

  /** The filter keeps the original order: filtering a concatenation filters each part in turn,
      a transaction in the window appears as often as it did before, and one outside it not at all. */
  lemma FilteredKeepsOrder(a: seq<Transaction>, b: seq<Transaction>, period: string, today: Date, t: Transaction)
    requires ValidDate(today)
    ensures Filtered(a + b, period, today) == Filtered(a, period, today) + Filtered(b, period, today)
    ensures InWindow(t.date, ReportWindow(period, today)) ==>
              multiset(Filtered(a, period, today))[t] == multiset(a)[t]
    ensures !InWindow(t.date, ReportWindow(period, today)) ==>
              multiset(Filtered(a, period, today))[t] == 0
  {
    Seqs.FilterAppend(a, b, DatedIn(ReportWindow(period, today)));
    Seqs.FilterCount(a, DatedIn(ReportWindow(period, today)), t);
  }

  /** A period the selector does not know reports the current month. */
  lemma UnknownPeriodIsCurrentMonth(txs: seq<Transaction>, period: string, today: Date)
    requires ValidDate(today)
    requires period !in {CURRENT_MONTH, LAST_MONTH, CURRENT_YEAR, LAST_YEAR, LAST_3_MONTHS, LAST_6_MONTHS}
    ensures Filtered(txs, period, today) == Filtered(txs, CURRENT_MONTH, today)
  {
    assert ReportWindow(period, today) == ReportWindow(CURRENT_MONTH, today);
  }

  // ----- CSV export -----

  const HEADER: seq<string> := ["Дата", "Тип", "Категория", "Описание", "Сумма"]

  /** One exported row. The date and amount renderings (`toLocaleDateString("ru-RU")`,
      `toString()`) are parameters. */
  function CsvRow(t: Transaction, showDate: Date -> string, showAmount: real -> string): (row: seq<string>)
    ensures |row| == |HEADER|
    ensures row[0] == showDate(t.date) && row[1] == TypeLabel(t.kind)
    ensures row[2] == t.category && row[3] == t.description && row[4] == showAmount(t.amount)
  {
    [showDate(t.date), TypeLabel(t.kind), t.category, t.description, showAmount(t.amount)]
  }

  /** The header followed by one row per filtered transaction, in order. */
  function CsvRows(filtered: seq<Transaction>, showDate: Date -> string, showAmount: real -> string): (rows: seq<seq<string>>)
    ensures |rows| == |filtered| + 1 && rows[0] == HEADER
    ensures forall i :: 0 <= i < |filtered| ==> rows[i + 1] == CsvRow(filtered[i], showDate, showAmount)
  {
    [HEADER] + seq(|filtered|, i requires 0 <= i < |filtered| => CsvRow(filtered[i], showDate, showAmount))
  }

  /** `row.join(",")` for every row. */
  function Lines(rows: seq<seq<string>>): (lines: seq<string>)
    ensures |lines| == |rows|
    ensures forall i :: 0 <= i < |rows| ==> lines[i] == Text.Join(rows[i], ',')
  {
    seq(|rows|, i requires 0 <= i < |rows| => Text.Join(rows[i], ','))
  }

  /** `exportToCSV`'s file content: fields joined by commas, rows by newlines, nothing quoted. */
  function Csv(filtered: seq<Transaction>, showDate: Date -> string, showAmount: real -> string): string
  {
    Text.Join(Lines(CsvRows(filtered, showDate, showAmount)), '\n')
  }

  /** No field of any row holds a comma or a newline. */
  predicate PlainRows(rows: seq<seq<string>>)
  {
    forall i :: 0 <= i < |rows| ==> Text.Clean(rows[i], ',') && Text.Clean(rows[i], '\n')
  }

  /** A character absent from every part and different from the separator is absent from the join. */
  lemma {:induction false} JoinAvoids(parts: seq<string>, sep: char, c: char)
    requires c != sep && Text.Clean(parts, c)
    ensures c !in Text.Join(parts, sep)
    decreases |parts|
  {
    if |parts| > 1 {
      JoinAvoids(parts[1..], sep, c);
      assert parts[0] + [sep] + Text.Join(parts[1..], sep) == Text.Join(parts, sep);
    }
  }

  /** When no field holds a comma or a newline, the export reads back as the header and one line
      per filtered transaction, each splitting on commas into exactly the fields it was built from. */
  lemma CsvReadsBack(filtered: seq<Transaction>, showDate: Date -> string, showAmount: real -> string)
    requires PlainRows(CsvRows(filtered, showDate, showAmount))
    ensures var lines := Text.Split(Csv(filtered, showDate, showAmount), '\n');
      && |lines| == |filtered| + 1
      && Text.Split(lines[0], ',') == HEADER
      && forall i :: 0 <= i < |filtered| ==> Text.Split(lines[i + 1], ',') == CsvRow(filtered[i], showDate, showAmount)
  {
    var rows := CsvRows(filtered, showDate, showAmount);
    var lines := Lines(rows);
    forall i | 0 <= i < |lines| ensures '\n' !in lines[i] && Text.Split(lines[i], ',') == rows[i] {
      JoinAvoids(rows[i], ',', '\n');
      Text.SplitJoin(rows[i], ',');
    }
    Text.SplitJoin(lines, '\n');
  }

  /** Nothing is quoted: a description holding a comma reads back as six fields, and the amount
      is no longer the fifth. */
  lemma CommaInDescriptionShiftsAmount(t: Transaction, showDate: Date -> string, showAmount: real -> string)
    requires t.description == "a,b"
    requires Text.Clean(CsvRow(t, showDate, showAmount)[..3], ',') && ',' !in showAmount(t.amount)
    ensures var fields := Text.Split(Text.Join(CsvRow(t, showDate, showAmount), ','), ',');
      |fields| == 6 && fields[3] == "a" && fields[4] == "b" && fields[5] == showAmount(t.amount)
  {
    var row := CsvRow(t, showDate, showAmount);
    var split := row[..3] + ["a", "b", row[4]];
    assert Text.Join(row, ',') == Text.Join(split, ',') by {
      var tail, tail' := [row[3], row[4]], ["a", "b", row[4]];
      assert tail[1..] == [row[4]] && tail'[1..] == ["b", row[4]] && tail'[1..][1..] == [row[4]];
      assert Text.Join(tail, ',') == Text.Join(tail', ',');
      assert row == row[..3] + tail;
      JoinSamePrefix(row[..3], tail, tail', ',');
    }
    assert Text.Clean(split, ',') by {
      assert forall i :: 0 <= i < 3 ==> split[i] == row[..3][i];
    }
    Text.SplitJoin(split, ',');
  }

  /** Parts with equal joins stay equal behind a common prefix. */
  lemma {:induction false} JoinSamePrefix(p: seq<string>, x: seq<string>, y: seq<string>, sep: char)
    requires |x| >= 1 && |y| >= 1 && Text.Join(x, sep) == Text.Join(y, sep)
    ensures Text.Join(p + x, sep) == Text.Join(p + y, sep)
    decreases |p|
  {
    if p == [] {
      assert p + x == x && p + y == y;
    } else {
      JoinSamePrefix(p[1..], x, y, sep);
      assert (p + x)[0] == p[0] && (p + x)[1..] == p[1..] + x;
      assert (p + y)[0] == p[0] && (p + y)[1..] == p[1..] + y;
      assert Text.Join(p + x, sep) == p[0] + [sep] + Text.Join(p[1..] + x, sep);
      assert Text.Join(p + y, sep) == p[0] + [sep] + Text.Join(p[1..] + y, sep);
    }
  }

  // ----- Expenses by category -----

  function CategoryOf(t: Transaction): string
  {
    t.category
  }

  /** `categoryData`: one `{name, value}` per expense category, the value summing that category's
      expenses, in order of first appearance (for category names that are ordinary object keys;
      see the `Tally` module). */
  function CategoryData(filtered: seq<Transaction>): (r: seq<Tally.Bucket<string>>)
    ensures Tally.UniqueKeys(r)
  {
    Tally.Accumulate(OfKind(filtered, Expense), CategoryOf, Amount)
  }

  /** The category values add up to the expense total shown on the page. */
  lemma CategoryDataTotal(filtered: seq<Transaction>)
    ensures Tally.Total(CategoryData(filtered)) == TotalsOf(filtered).totalExpenses
  {
    Tally.AccumulateTotal(OfKind(filtered, Expense), CategoryOf, Amount);
  }

  /** `t => t.type === "expense" && t.category === name` */
  function ExpenseOf(name: string): Transaction -> bool
  {
    (t: Transaction) => t.kind == Expense && t.category == name
  }

  /** Each category's value is the sum of exactly its expenses; income never contributes. */
  lemma CategoryDataValue(filtered: seq<Transaction>, name: string)
    ensures Tally.Lookup(CategoryData(filtered), name) == Seqs.SumBy(Seqs.Filter(filtered, ExpenseOf(name)), Amount)
  {
    Tally.AccumulateLookup(OfKind(filtered, Expense), CategoryOf, Amount, name);
    assert Seqs.Filter(OfKind(filtered, Expense), Tally.KeyIs(CategoryOf, name)) == Seqs.Filter(filtered, ExpenseOf(name)) by {
      forall t: Transaction ensures ExpenseOf(name)(t) == (KindIs(Expense)(t) && Tally.KeyIs(CategoryOf, name)(t)) {
        assert Tally.KeyIs(CategoryOf, name)(t) == (CategoryOf(t) == name);
      }
      Seqs.FilterFilter(filtered, KindIs(Expense), Tally.KeyIs(CategoryOf, name), ExpenseOf(name));
    }
  }

  /** A category is charted exactly when some filtered expense carries it. */
  lemma CategoryDataNames(filtered: seq<Transaction>, name: string)
    ensures name in Tally.Keys(CategoryData(filtered)) <==> exists t :: t in filtered && t.kind == Expense && t.category == name
  {
    Tally.AccumulateKeys(OfKind(filtered, Expense), CategoryOf, Amount, name);
  }

  // ----- Month by month -----

  /** The calendar month a `toLocaleDateString("ru-RU", { year, month: "short" })` label names. */
  datatype YearMonth = YearMonth(year: int, month: int)

  function MonthKey(t: Transaction): YearMonth
  {
    YearMonth(t.date.year, t.date.month)
  }

  /** One `{ month, income, expenses }` entry of `monthlyData`. */
  datatype MonthRow = MonthRow(month: YearMonth, income: real, expenses: real)

  function Months(rows: seq<MonthRow>): (ms: seq<YearMonth>)
    ensures |ms| == |rows| && forall i :: 0 <= i < |rows| ==> ms[i] == rows[i].month
  {
    seq(|rows|, i requires 0 <= i < |rows| => rows[i].month)
  }

  /** One step of the month reducer: creates the month's entry at zero if it is missing, then adds
      the amount to income for an income transaction and to expenses for anything else. */
  function AddToMonth(rows: seq<MonthRow>, t: Transaction): (r: seq<MonthRow>)
    ensures Months(r) == if MonthKey(t) in Months(rows) then Months(rows) else Months(rows) + [MonthKey(t)]
    decreases |rows|
  {
    if rows == [] then
      [if t.kind == Income then MonthRow(MonthKey(t), t.amount, 0.0) else MonthRow(MonthKey(t), 0.0, t.amount)]
    else if rows[0].month == MonthKey(t) then
      [if t.kind == Income then rows[0].(income := rows[0].income + t.amount)
       else rows[0].(expenses := rows[0].expenses + t.amount)] + rows[1..]
    else
      assert Months(rows)[1..] == Months(rows[1..]);
      [rows[0]] + AddToMonth(rows[1..], t)
  }

  /** The month entries after reducing over `txs`, in order of first appearance. */
  function MonthlyOf(txs: seq<Transaction>): seq<MonthRow>
    decreases |txs|
  {
    if txs == [] then [] else AddToMonth(MonthlyOf(txs[..|txs| - 1]), txs[|txs| - 1])
  }

  /** `monthlyData`: the reducer run over the filtered transactions, one at a time. */
  method MonthlyData(filtered: seq<Transaction>) returns (rows: seq<MonthRow>)
    ensures rows == MonthlyOf(filtered)
  {
    rows := [];
    for i := 0 to |filtered|
      invariant rows == MonthlyOf(filtered[..i])
    {
      assert filtered[..i + 1][..i] == filtered[..i];
      rows := AddToMonth(rows, filtered[i]);
    }
    assert filtered[..|filtered|] == filtered;
  }

  /** The income and expenses booked under `m`, or zero when it has no entry. */
  function MonthIncome(rows: seq<MonthRow>, m: YearMonth): real
    decreases |rows|
  {
    if rows == [] then 0.0 else if rows[0].month == m then rows[0].income else MonthIncome(rows[1..], m)
  }

  function MonthExpenses(rows: seq<MonthRow>, m: YearMonth): real
    decreases |rows|
  {
    if rows == [] then 0.0 else if rows[0].month == m then rows[0].expenses else MonthExpenses(rows[1..], m)
  }

  /** No month has two entries. */
  ghost predicate UniqueMonths(rows: seq<MonthRow>)
  {
    forall i, j :: 0 <= i < j < |rows| ==> rows[i].month != rows[j].month
  }

  lemma {:induction false} AbsentMonth(rows: seq<MonthRow>, m: YearMonth)
    requires m !in Months(rows)
    ensures MonthIncome(rows, m) == 0.0 && MonthExpenses(rows, m) == 0.0
    decreases |rows|
  {
    if rows != [] {
      assert Months(rows)[1..] == Months(rows[1..]);
      AbsentMonth(rows[1..], m);
    }
  }

  /** One reducer step adds the amount to the transaction's month, to income or to expenses by
      type, and changes no other month. */
  lemma {:induction false} AddToMonthLookup(rows: seq<MonthRow>, t: Transaction, m: YearMonth)
    requires UniqueMonths(rows)
    ensures MonthIncome(AddToMonth(rows, t), m)
            == MonthIncome(rows, m) + (if m == MonthKey(t) && t.kind == Income then t.amount else 0.0)
    ensures MonthExpenses(AddToMonth(rows, t), m)
            == MonthExpenses(rows, m) + (if m == MonthKey(t) && t.kind != Income then t.amount else 0.0)
    decreases |rows|
  {
    if rows != [] && rows[0].month != MonthKey(t) {
      AddToMonthLookup(rows[1..], t, m);
    }
  }

  lemma AddToMonthUnique(rows: seq<MonthRow>, t: Transaction)
    requires UniqueMonths(rows)
    ensures UniqueMonths(AddToMonth(rows, t))
  {
    var r := AddToMonth(rows, t);
    forall i, j | 0 <= i < j < |r| ensures r[i].month != r[j].month {
      assert Months(r)[i] == r[i].month && Months(r)[j] == r[j].month;
      assert Months(rows)[i] == rows[i].month;
      if j < |rows| {
        assert Months(rows)[j] == rows[j].month;
      }
    }
  }

  lemma {:induction false} MonthlyUnique(txs: seq<Transaction>)
    ensures UniqueMonths(MonthlyOf(txs))
    decreases |txs|
  {
    if txs != [] {
      MonthlyUnique(txs[..|txs| - 1]);
      AddToMonthUnique(MonthlyOf(txs[..|txs| - 1]), txs[|txs| - 1]);
    }
  }

  /** `t => month label of t.date === label of m` */
  function InMonth(m: YearMonth): Transaction -> bool
  {
    (t: Transaction) => MonthKey(t) == m
  }

  /** Each month's entry holds the income and the expenses of exactly the transactions dated in
      that month; every transaction that is not income counts as an expense. */
  lemma {:induction false} MonthlyTotals(txs: seq<Transaction>, m: YearMonth)
    ensures MonthIncome(MonthlyOf(txs), m) == TotalOf(Seqs.Filter(txs, InMonth(m)), Income)
    ensures MonthExpenses(MonthlyOf(txs), m) == TotalOf(Seqs.Filter(txs, InMonth(m)), Expense)
    decreases |txs|
  {
    if txs != [] {
      var init, last := txs[..|txs| - 1], txs[|txs| - 1];
      var before := MonthlyOf(init);
      assert MonthlyOf(txs) == AddToMonth(before, last);
      assert MonthIncome(MonthlyOf(txs), m) == MonthIncome(before, m) + (if m == MonthKey(last) && last.kind == Income then last.amount else 0.0)
          && MonthExpenses(MonthlyOf(txs), m) == MonthExpenses(before, m) + (if m == MonthKey(last) && last.kind != Income then last.amount else 0.0) by {
        MonthlyUnique(init);
        AddToMonthLookup(before, last, m);
      }
      MonthlyTotals(init, m);
      InMonthSnoc(txs, m);
    }
  }

  /** Adding a transaction at the end adds its amount to its own month's total of its type. */
  lemma InMonthSnoc(txs: seq<Transaction>, m: YearMonth)
    requires txs != []
    ensures var init, last := txs[..|txs| - 1], txs[|txs| - 1];
      && TotalOf(Seqs.Filter(txs, InMonth(m)), Income)
         == TotalOf(Seqs.Filter(init, InMonth(m)), Income) + (if MonthKey(last) == m && last.kind == Income then last.amount else 0.0)
      && TotalOf(Seqs.Filter(txs, InMonth(m)), Expense)
         == TotalOf(Seqs.Filter(init, InMonth(m)), Expense) + (if MonthKey(last) == m && last.kind != Income then last.amount else 0.0)
  {
    var init, last := txs[..|txs| - 1], txs[|txs| - 1];
    assert Seqs.Filter(txs, InMonth(m)) == Seqs.Filter(init, InMonth(m)) + Seqs.Filter([last], InMonth(m)) by {
      assert txs == init + [last];
      Seqs.FilterAppend(init, [last], InMonth(m));
    }
    TotalOfAppend(Seqs.Filter(init, InMonth(m)), Seqs.Filter([last], InMonth(m)), Income);
    TotalOfAppend(Seqs.Filter(init, InMonth(m)), Seqs.Filter([last], InMonth(m)), Expense);
    OneInMonth(last, m);
  }

  lemma OneInMonth(t: Transaction, m: YearMonth)
    ensures TotalOf(Seqs.Filter([t], InMonth(m)), Income) == if MonthKey(t) == m && t.kind == Income then t.amount else 0.0
    ensures TotalOf(Seqs.Filter([t], InMonth(m)), Expense) == if MonthKey(t) == m && t.kind != Income then t.amount else 0.0
  {
    assert [t][1..] == [];
    var f := Seqs.Filter([t], InMonth(m));
    assert f == if MonthKey(t) == m then [t] else [];
    assert OfKind(f, Income) == if MonthKey(t) == m && t.kind == Income then [t] else [];
    assert OfKind(f, Expense) == if MonthKey(t) == m && t.kind == Expense then [t] else [];
    assert Seqs.SumBy([t], Amount) == t.amount;
  }

  /** A month has an entry exactly when some transaction is dated in it. */
  lemma {:induction false} MonthlyMonths(txs: seq<Transaction>, m: YearMonth)
    ensures m in Months(MonthlyOf(txs)) <==> exists t :: t in txs && MonthKey(t) == m
    decreases |txs|
  {
    if txs != [] {
      var init, last := txs[..|txs| - 1], txs[|txs| - 1];
      assert m in Months(MonthlyOf(txs)) <==> m in Months(MonthlyOf(init)) || m == MonthKey(last) by {
        assert MonthlyOf(txs) == AddToMonth(MonthlyOf(init), last);
      }
      MonthInSnoc(txs, m);
      MonthlyMonths(init, m);
    }
  }

  /** A month occurs in a non-empty list when it occurs in all but its last row or in that row. */
  lemma MonthInSnoc(txs: seq<Transaction>, m: YearMonth)
    requires txs != []
    ensures (exists t :: t in txs && MonthKey(t) == m)
        <==> (exists t :: t in txs[..|txs| - 1] && MonthKey(t) == m) || MonthKey(txs[|txs| - 1]) == m
  {
    var init, last := txs[..|txs| - 1], txs[|txs| - 1];
    assert txs == init + [last];
    if exists t :: t in txs && MonthKey(t) == m {
      var t :| t in txs && MonthKey(t) == m;
      if t != last {
        assert t in init;
      }
    }
    if exists t :: t in init && MonthKey(t) == m {
      var t :| t in init && MonthKey(t) == m;
      assert t in txs;
    }
  }

  // ----- Day by day, and the running balance -----

  function DateOf(t: Transaction): Date
  {
    t.date
  }

  /** The day a `dailyTrend` entry stands for, for ordering. */
  function EntryDay(b: Tally.Bucket<Date>): int
  {
    DayNumber(b.key)
  }

  /** `dailyTrend`: the reducer adds income and subtracts every other transaction under its date,
      one entry per date in order of first appearance; the entries are then ordered by date. */
  method DailyTrend(filtered: seq<Transaction>) returns (trend: seq<Tally.Bucket<Date>>)
    ensures trend == Seqs.SortBy(Tally.Accumulate(filtered, DateOf, Signed), EntryDay)
    ensures Seqs.SortedBy(trend, EntryDay)
  {
    var acc: seq<Tally.Bucket<Date>> := [];
    for i := 0 to |filtered|
      invariant acc == Tally.Accumulate(filtered[..i], DateOf, Signed)
    {
      assert filtered[..i + 1][..i] == filtered[..i];
      acc := Tally.Add(acc, filtered[i].date, Signed(filtered[i]));
    }
    assert filtered[..|filtered|] == filtered;
    trend := Seqs.SortBy(acc, EntryDay);
  }

  /** One entry of `cumulativeData`: the day's net and the balance accumulated up to that day. */
  datatype CumulativePoint = CumulativePoint(date: Date, balance: real, cumulative: real)

  /** `cumulativeData`: `cumulativeBalance` starts at 0 and each entry adds its day's net. */
  method Cumulative(trend: seq<Tally.Bucket<Date>>) returns (points: seq<CumulativePoint>)
    ensures |points| == |trend|
    ensures forall i :: 0 <= i < |trend| ==> points[i].date == trend[i].key && points[i].balance == trend[i].value
    ensures forall i :: 0 <= i < |trend| ==> points[i].cumulative == Seqs.SumBy(trend[..i + 1], Tally.Value)
    ensures |trend| > 0 ==> points[0].cumulative == trend[0].value
    ensures forall i :: 0 < i < |trend| ==> points[i].cumulative == points[i - 1].cumulative + trend[i].value
  {
    var running := 0.0;
    points := [];
    for i := 0 to |trend|
      invariant |points| == i
      invariant running == Seqs.SumBy(trend[..i], Tally.Value)
      invariant forall j :: 0 <= j < i ==> points[j].date == trend[j].key && points[j].balance == trend[j].value
      invariant forall j :: 0 <= j < i ==> points[j].cumulative == Seqs.SumBy(trend[..j + 1], Tally.Value)
    {
      assert trend[..i + 1] == trend[..i] + [trend[i]];
      Seqs.SumByAppend(trend[..i], [trend[i]], Tally.Value);
      assert Seqs.SumBy([trend[i]], Tally.Value) == trend[i].value by {
        assert [trend[i]][1..] == [];
      }
      running := running + trend[i].value;
      points := points + [CumulativePoint(trend[i].key, trend[i].value, running)];
    }
    forall i | 0 < i < |trend|
      ensures points[i].cumulative == points[i - 1].cumulative + trend[i].value
    {
      assert trend[..i + 1] == trend[..i] + [trend[i]];
      Seqs.SumByAppend(trend[..i], [trend[i]], Tally.Value);
      assert Seqs.SumBy([trend[i]], Tally.Value) == trend[i].value by {
        assert [trend[i]][1..] == [];
      }
    }
    if |trend| > 0 {
      assert Seqs.SumBy(trend[..1], Tally.Value) == trend[0].value by {
        assert trend[..1][1..] == [];
      }
    }
  }

  /** The day entries together hold the period's balance, whatever their order. */
  lemma TrendSumsToBalance(filtered: seq<Transaction>)
    ensures Seqs.SumBy(Seqs.SortBy(Tally.Accumulate(filtered, DateOf, Signed), EntryDay), Tally.Value)
            == TotalsOf(filtered).balance
  {
    var acc := Tally.Accumulate(filtered, DateOf, Signed);
    Seqs.SumBySort(acc, EntryDay, Tally.Value);
    Tally.TotalIsSum(acc);
    Tally.AccumulateTotal(filtered, DateOf, Signed);
  }

  /** The running-balance chart: one point per day with transactions, and the last point's
      cumulative balance is the period's `totalIncome - totalExpenses`. */
  method CumulativeData(filtered: seq<Transaction>) returns (points: seq<CumulativePoint>)
    ensures |points| == |Tally.Accumulate(filtered, DateOf, Signed)|
    ensures |points| > 0 ==> points[|points| - 1].cumulative == TotalsOf(filtered).balance
  {
    var trend := DailyTrend(filtered);
    points := Cumulative(trend);
    if |points| > 0 {
      var last := |trend| - 1;
      assert points[last].cumulative == Seqs.SumBy(trend, Tally.Value) by {
        assert trend[..last + 1] == trend;
      }
      TrendSumsToBalance(filtered);
    }
  }

  /** There is a day entry exactly when some transaction is dated that day. */
  lemma TrendDays(filtered: seq<Transaction>, d: Date)
    ensures d in Tally.Keys(Tally.Accumulate(filtered, DateOf, Signed)) <==> exists t :: t in filtered && t.date == d
  {
    Tally.AccumulateKeys(filtered, DateOf, Signed, d);
  }

  // ----- Detail table -----

  /** `new Date(t.created_at || t.date).getTime()`: the creation time in milliseconds, or midnight
      UTC of the transaction date when there is none. */
  function SortTime(t: Transaction): int
  {
    match t.createdAt
    case Some(ms) => ms
    case None => DayNumber(t.date) * MS_PER_DAY
  }

  /** Newest first by `SortTime`. */
  ghost predicate NewestFirst(s: seq<Transaction>)
  {
    forall i, j :: 0 <= i < j < |s| ==> SortTime(s[j]) <= SortTime(s[i])
  }

  /** `t => time(t) === time` */
  function TimeIs(time: int): Transaction -> bool
  {
    (t: Transaction) => SortTime(t) == time
  }

  /** Every group of transactions sharing a sort time appears in `s` in the order it has in `s0`:
      the stability `Array.prototype.sort` guarantees. */
  ghost predicate TiesInOrder(s: seq<Transaction>, s0: seq<Transaction>)
  {
    forall time :: Seqs.Filter(s, TimeIs(time)) == Seqs.Filter(s0, TimeIs(time))
  }

  /** Keeping ties in order composes. */
  lemma TiesInOrderTrans(s: seq<Transaction>, mid: seq<Transaction>, s0: seq<Transaction>)
    requires TiesInOrder(s, mid) && TiesInOrder(mid, s0)
    ensures TiesInOrder(s, s0)
  {
  }

  /** Two neighbours of which at most one passes a filter can trade places unseen by it. */
  lemma PairFilter(x: Transaction, y: Transaction, p: Transaction -> bool)
    requires !(p(x) && p(y))
    ensures Seqs.Filter([x, y], p) == Seqs.Filter([y, x], p)
  {
    assert [x, y][1..] == [y] && [y, x][1..] == [x];
    assert [y][1..] == [] && [x][1..] == [];
  }

  /** Swapping two neighbours with different sort times keeps every group of ties in order. */
  lemma SwapKeepsTies(s: seq<Transaction>, k: int, s0: seq<Transaction>)
    requires 0 <= k < |s| - 1 && SortTime(s[k]) != SortTime(s[k + 1])
    requires TiesInOrder(s, s0)
    ensures TiesInOrder(s[k := s[k + 1]][k + 1 := s[k]], s0)
  {
    var x, y := s[k], s[k + 1];
    var swapped := s[k := y][k + 1 := x];
    var front, back := s[..k], s[k + 2..];
    assert s == front + ([x, y] + back);
    assert swapped == front + ([y, x] + back);
    forall time ensures Seqs.Filter(swapped, TimeIs(time)) == Seqs.Filter(s0, TimeIs(time)) {
      var p := TimeIs(time);
      PairFilter(x, y, p);
      Seqs.FilterAppend(front, [x, y] + back, p);
      Seqs.FilterAppend(front, [y, x] + back, p);
      Seqs.FilterAppend([x, y], back, p);
      Seqs.FilterAppend([y, x], back, p);
    }
  }

  method Swap(a: array<Transaction>, i: int, j: int)
    requires 0 <= i < j < a.Length
    modifies a
    ensures a[..] == old(a[..])[i := old(a[j])][j := old(a[i])]
    ensures multiset(a[..]) == old(multiset(a[..]))
  {
    a[i], a[j] := a[j], a[i];
  }

  /** The newest-first order holds among the first `n` entries. */
  ghost predicate NewestFirstUpTo(a: seq<Transaction>, n: int)
  {
    forall p, q :: 0 <= p < q < n && q < |a| ==> SortTime(a[q]) <= SortTime(a[p])
  }

  /** The order inside one insertion pass over `s` with the entry at `i`, which has moved down to
      `j`: the other entries up to `i` are newest first and the entries above `j` are all older. */
  ghost predicate SinkOrder(s: seq<Transaction>, i: int, j: int)
  {
    && 0 <= j <= i < |s|
    && (forall p, q :: 0 <= p < q <= i && p != j && q != j ==> SortTime(s[q]) <= SortTime(s[p]))
    && (forall q :: j < q <= i ==> SortTime(s[q]) < SortTime(s[j]))
  }

  /** The state of that pass when it started from `s0`: the array is also a tie-preserving
      rearrangement of `s0`. */
  ghost predicate Sinking(s: seq<Transaction>, s0: seq<Transaction>, i: int, j: int)
  {
    SinkOrder(s, i, j) && multiset(s) == multiset(s0) && TiesInOrder(s, s0)
  }

  lemma SinkStepOrder(s: seq<Transaction>, i: int, j: int)
    requires SinkOrder(s, i, j) && j > 0 && SortTime(s[j - 1]) < SortTime(s[j])
    ensures SinkOrder(s[j - 1 := s[j]][j := s[j - 1]], i, j - 1)
  {
  }

  lemma SwapMultiset(s: seq<Transaction>, k: int)
    requires 0 <= k < |s| - 1
    ensures multiset(s[k := s[k + 1]][k + 1 := s[k]]) == multiset(s)
  {
    assert s[k := s[k + 1]][k + 1 := s[k]] == s[..k] + [s[k + 1], s[k]] + s[k + 2..];
    assert s == s[..k] + [s[k], s[k + 1]] + s[k + 2..];
  }

  /** Swapping the moving entry with a strictly older neighbour moves it down one place. */
  lemma SinkStep(s: seq<Transaction>, s0: seq<Transaction>, i: int, j: int)
    requires Sinking(s, s0, i, j) && j > 0 && SortTime(s[j - 1]) < SortTime(s[j])
    ensures Sinking(s[j - 1 := s[j]][j := s[j - 1]], s0, i, j - 1)
  {
    SinkStepOrder(s, i, j);
    SwapMultiset(s, j - 1);
    SwapKeepsTies(s, j - 1, s0);
  }

  /** The pass stops at the bottom or below an entry no older than the moving one. */
  lemma SinkDone(s: seq<Transaction>, s0: seq<Transaction>, i: int, j: int)
    requires Sinking(s, s0, i, j) && (j == 0 || SortTime(s[j - 1]) >= SortTime(s[j]))
    ensures NewestFirstUpTo(s, i + 1)
  {
  }

  /** One pass of the insertion sort: the entry at `i` moves down past every older entry before
      it, swapping neighbours only when strictly older, so ties never cross. */
  method SinkInto(a: array<Transaction>, i: int)
    requires 0 <= i < a.Length && NewestFirstUpTo(a[..], i)
    modifies a
    ensures NewestFirstUpTo(a[..], i + 1)
    ensures multiset(a[..]) == old(multiset(a[..]))
    ensures TiesInOrder(a[..], old(a[..]))
  {
    var j := i;
    while j > 0 && SortTime(a[j - 1]) < SortTime(a[j])
      invariant Sinking(a[..], old(a[..]), i, j)
    {
      SinkStep(a[..], old(a[..]), i, j);
      Swap(a, j - 1, j);
      j := j - 1;
    }
    SinkDone(a[..], old(a[..]), i, j);
  }

  /** `filteredTransactions.sort((a, b) => time(b) - time(a))`: sorts the table in place, newest
      first, keeping the same transactions, and transactions with the same time in their order. */
  method SortNewestFirst(a: array<Transaction>)
    modifies a
    ensures NewestFirst(a[..])
    ensures multiset(a[..]) == old(multiset(a[..]))
    ensures TiesInOrder(a[..], old(a[..]))
  {
    var i := 0;
    while i < a.Length
      invariant 0 <= i <= a.Length
      invariant NewestFirstUpTo(a[..], i)
      invariant multiset(a[..]) == old(multiset(a[..]))
      invariant TiesInOrder(a[..], old(a[..]))
    {
      ghost var before := a[..];
      SinkInto(a, i);
      TiesInOrderTrans(a[..], before, old(a[..]));
      i := i + 1;
    }
  }
}
