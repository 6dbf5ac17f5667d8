/** The transaction ledger shared by the dashboard, budget, savings, reports and family pages:
    transactions, calendar dates, date windows and per-type totals. */
module Ledger {
  import opened Wrappers
  import Seqs

  datatype TxType = Income | Expense

  /** A calendar date as stored in the `date` column (`YYYY-MM-DD`). */
  datatype Date = Date(year: int, month: int, day: int)

  /** Calendar order of dates: year, then month, then day. */
  predicate DateLe(a: Date, b: Date)
  {
    a.year < b.year || (a.year == b.year && (a.month < b.month || (a.month == b.month && a.day <= b.day)))
  }

  /** An inclusive date range: `start <= date && date <= end`. */
  datatype Window = Window(start: Date, end: Date)

  predicate InWindow(d: Date, w: Window)
  {
    DateLe(w.start, d) && DateLe(d, w.end)
  }

  /** Number of days from 1970-01-01 to `d` in the proleptic Gregorian calendar
      (the value `new Date("YYYY-MM-DD")` denotes, divided by the length of a day). */
  function DayNumber(d: Date): int
  {
    var y := if d.month <= 2 then d.year - 1 else d.year;
    var era := y / 400;
    var yoe := y - era * 400;
    var mp := if d.month > 2 then d.month - 3 else d.month + 9;
    var doy := (153 * mp + 2) / 5 + d.day - 1;
    var doe := yoe * 365 + yoe / 4 - yoe / 100 + doy;
    era * 146097 + doe - 719468
  }

  const MS_PER_DAY: int := 86400000

  /** One row of the `transactions` table, with the columns the pages read. */
  datatype Transaction = Transaction(
    id: string,
    amount: real,
    kind: TxType,
    category: string,
    description: string,
    date: Date,
    createdAt: Option<int>,
    createdBy: string)

  /** One row of the `categories` table: a name, the type it applies to and an optional monthly limit. */
  datatype Category = Category(id: string, name: string, kind: TxType, budgetLimit: Option<real>)

  /** `c => c.type === k` */
  function CategoryKindIs(k: TxType): Category -> bool
  {
    (c: Category) => c.kind == k
  }

  /** The categories of one type, in their loaded order (`categories.filter(cat => cat.type === k)`). */
  function CategoriesOf(categories: seq<Category>, k: TxType): (r: seq<Category>)
    ensures forall c :: c in r <==> c in categories && c.kind == k
  {
    Seqs.Filter(categories, CategoryKindIs(k))
  }

  /** How a type is shown: `type === "income" ? "Доход" : "Расход"`. */
  function TypeLabel(k: TxType): string
  {
    if k == Income then "Доход" else "Расход"
  }

  function Amount(t: Transaction): real
  {
    t.amount
  }

  /** `t => t.type === k` */
  function KindIs(k: TxType): Transaction -> bool
  {
    (t: Transaction) => t.kind == k
  }

  /** `t => t.category === name` */
  function CategoryIs(name: string): Transaction -> bool
  {
    (t: Transaction) => t.category == name
  }

  /** The transactions of one type, in their original order. */
  function OfKind(txs: seq<Transaction>, k: TxType): seq<Transaction>
  {
    Seqs.Filter(txs, KindIs(k))
  }

  /** `txs.filter(t => t.type === k).reduce((sum, t) => sum + t.amount, 0)` */
  function TotalOf(txs: seq<Transaction>, k: TxType): real
  {
    Seqs.SumBy(OfKind(txs, k), Amount)
  }

  /** `totalIncome - totalExpenses` */
  function Balance(txs: seq<Transaction>): real
  {
    TotalOf(txs, Income) - TotalOf(txs, Expense)
  }

  /** The page totals: `totalIncome`, `totalExpenses` and `balance = totalIncome - totalExpenses`. */
  datatype Totals = Totals(totalIncome: real, totalExpenses: real, balance: real)

  /** The totals over a list of transactions; the balance is the sum of the signed amounts. */
  function TotalsOf(txs: seq<Transaction>): (t: Totals)
    ensures t.totalIncome == TotalOf(txs, Income) && t.totalExpenses == TotalOf(txs, Expense)
    ensures t.balance == Seqs.SumBy(txs, Signed)
  {
    BalanceIsSignedSum(txs);
    Totals(TotalOf(txs, Income), TotalOf(txs, Expense), TotalOf(txs, Income) - TotalOf(txs, Expense))
  }

  /** A transaction's effect on the balance: income adds its amount, anything else subtracts it. */
  function Signed(t: Transaction): real
  {
    if t.kind == Income then t.amount else -t.amount
  }

  /** Per-type totals split over a concatenation. */
  lemma TotalOfAppend(a: seq<Transaction>, b: seq<Transaction>, k: TxType)
    ensures TotalOf(a + b, k) == TotalOf(a, k) + TotalOf(b, k)
  {
    Seqs.FilterAppend(a, b, KindIs(k));
    Seqs.SumByAppend(OfKind(a, k), OfKind(b, k), Amount);
  }

  /** Per-type totals of a list, split into its first transaction and the rest. */
  lemma TotalOfCons(txs: seq<Transaction>, k: TxType)
    requires txs != []
    ensures TotalOf(txs, k) == (if txs[0].kind == k then txs[0].amount else 0.0) + TotalOf(txs[1..], k)
  {
    assert txs == [txs[0]] + txs[1..];
    TotalOfAppend([txs[0]], txs[1..], k);
    assert [txs[0]][1..] == [];
    assert OfKind([txs[0]], k) == if txs[0].kind == k then [txs[0]] else [];
  }

  /** The balance is the sum of the signed amounts, transaction by transaction. */
  lemma {:induction false} BalanceIsSignedSum(txs: seq<Transaction>)
    ensures Seqs.SumBy(txs, Signed) == Balance(txs)
    decreases |txs|
  {
    if txs != [] {
      BalanceIsSignedSum(txs[1..]);
      TotalOfCons(txs, Income);
      TotalOfCons(txs, Expense);
    }
  }

  /** Every transaction is income or expense, so the two totals together are the grand total. */
  lemma {:induction false} TotalsPartition(txs: seq<Transaction>)
    ensures TotalOf(txs, Income) + TotalOf(txs, Expense) == Seqs.SumBy(txs, Amount)
    decreases |txs|
  {
    if txs != [] {
      TotalsPartition(txs[1..]);
      TotalOfCons(txs, Income);
      TotalOfCons(txs, Expense);
    }
  }
}
