/**
 * The per-loft financial summary of the reports page: for every loft, the
 * completed income, the completed expenses and their difference.
 * Amounts are whole numbers of centimes.
 */
module Reports {

  datatype Transaction = Transaction(transactionType: string, status: string, amount: int)

  datatype Loft = Loft(name: string, transactions: seq<Transaction>)

  datatype LoftRevenue = LoftRevenue(name: string, revenue: int, expenses: int, netProfit: int)

  predicate IsCompletedIncome(t: Transaction)
  {
    t.transactionType == "income" && t.status == "completed"
  }

  predicate IsCompletedExpense(t: Transaction)
  {
    t.transactionType == "expense" && t.status == "completed"
  }

  /** `Array.prototype.filter`: the elements satisfying `p`, in their original order. */
  function Filter(s: seq<Transaction>, p: Transaction -> bool): (r: seq<Transaction>)
    ensures |r| <= |s|
    ensures forall t :: t in r <==> t in s && p(t)
  {
    if s == [] then []
    else
      assert forall t :: t in s <==> t == s[0] || t in s[1..];
      if p(s[0]) then [s[0]] + Filter(s[1..], p)
      else Filter(s[1..], p)
  }

  /** Filtering keeps the original order: it distributes over concatenation. */
  lemma {:induction false} FilterAppend(a: seq<Transaction>, b: seq<Transaction>, p: Transaction -> bool)
    ensures Filter(a + b, p) == Filter(a, p) + Filter(b, p)
  {
    if a == [] {
      assert a + b == b;
    } else {
      assert (a + b)[0] == a[0];
      assert (a + b)[1..] == a[1..] + b;
      FilterAppend(a[1..], b, p);
    }
  }

  /** `reduce((acc, t) => acc + t.amount, acc)`: a left fold adding the amounts. */
  function ReduceAmounts(acc: int, s: seq<Transaction>): int
    decreases s
  {
    if s == [] then acc else ReduceAmounts(acc + s[0].amount, s[1..])
  }

  /** Independent reference: the sum of the amounts of those transactions that satisfy `p`. */
  function SumWhere(s: seq<Transaction>, p: Transaction -> bool): int
  {
    if s == [] then 0 else (if p(s[0]) then s[0].amount else 0) + SumWhere(s[1..], p)
  }

  function Revenue(txs: seq<Transaction>): int
  {
    ReduceAmounts(0, Filter(txs, IsCompletedIncome))
  }

  function Expenses(txs: seq<Transaction>): int
  {
    ReduceAmounts(0, Filter(txs, IsCompletedExpense))
  }

  /** The summary of one loft, as the `map` callback builds it. */
  function Summarize(loft: Loft): (r: LoftRevenue)
    ensures r.name == loft.name
    ensures r.revenue == SumWhere(loft.transactions, IsCompletedIncome)
    ensures r.expenses == SumWhere(loft.transactions, IsCompletedExpense)
    ensures r.netProfit == r.revenue - r.expenses
  {
    RevenueIsSumWhere(loft.transactions);
    ExpensesIsSumWhere(loft.transactions);
    var revenue := Revenue(loft.transactions);
    var expenses := Expenses(loft.transactions);
    LoftRevenue(loft.name, revenue, expenses, revenue - expenses)
  }

  /** `lofts.map(...)`: one summary per loft, in the same order. */
  function LoftRevenues(lofts: seq<Loft>): (r: seq<LoftRevenue>)
    ensures |r| == |lofts|
    ensures forall i :: 0 <= i < |lofts| ==> r[i] == Summarize(lofts[i])
  {
    if lofts == [] then [] else [Summarize(lofts[0])] + LoftRevenues(lofts[1..])
  }

  /** Every entry of the report names its loft and obeys the three totals. */
  lemma LoftRevenuesSpec(lofts: seq<Loft>, i: int)
    requires 0 <= i < |lofts|
    ensures |LoftRevenues(lofts)| == |lofts|
    ensures LoftRevenues(lofts)[i].name == lofts[i].name
    ensures LoftRevenues(lofts)[i].revenue == SumWhere(lofts[i].transactions, IsCompletedIncome)
    ensures LoftRevenues(lofts)[i].expenses == SumWhere(lofts[i].transactions, IsCompletedExpense)
    ensures LoftRevenues(lofts)[i].netProfit
         == LoftRevenues(lofts)[i].revenue - LoftRevenues(lofts)[i].expenses
  {
  }

  /** The left fold started at `acc` is `acc` plus the plain sum. */
  lemma {:induction false} ReduceIsSum(acc: int, s: seq<Transaction>)
    ensures ReduceAmounts(acc, s) == acc + SumWhere(s, t => true)
    decreases s
  {
    if s != [] {
      ReduceIsSum(acc + s[0].amount, s[1..]);
    }
  }

  /** Summing a filtered list is summing the matching elements of the whole list. */
  lemma {:induction false} SumOfFilter(s: seq<Transaction>, p: Transaction -> bool)
    ensures SumWhere(Filter(s, p), t => true) == SumWhere(s, p)
  {
    if s != [] {
      SumOfFilter(s[1..], p);
      if p(s[0]) {
        var f := [s[0]] + Filter(s[1..], p);
        assert f[1..] == Filter(s[1..], p);
      }
    }
  }

  lemma RevenueIsSumWhere(txs: seq<Transaction>)
    ensures Revenue(txs) == SumWhere(txs, IsCompletedIncome)
  {
    ReduceIsSum(0, Filter(txs, IsCompletedIncome));
    SumOfFilter(txs, IsCompletedIncome);
  }

  lemma ExpensesIsSumWhere(txs: seq<Transaction>)
    ensures Expenses(txs) == SumWhere(txs, IsCompletedExpense)
  {
    ReduceIsSum(0, Filter(txs, IsCompletedExpense));
    SumOfFilter(txs, IsCompletedExpense);
  }

  /** The conditional sum distributes over concatenation. */
  lemma {:induction false} SumWhereAppend(a: seq<Transaction>, b: seq<Transaction>, p: Transaction -> bool)
    ensures SumWhere(a + b, p) == SumWhere(a, p) + SumWhere(b, p)
  {
    if a != [] {
      assert (a + b)[1..] == a[1..] + b;
      SumWhereAppend(a[1..], b, p);
    } else {
      assert a + b == b;
    }
  }

  /** A loft with no transactions reports zero everywhere. */
  lemma EmptyLoftIsZero(name: string)
    ensures Summarize(Loft(name, [])) == LoftRevenue(name, 0, 0, 0)
  {
  }

  /** Revenue and expenses are additive over a split of the transaction list. */
  lemma TotalsAreAdditive(a: seq<Transaction>, b: seq<Transaction>)
    ensures Revenue(a + b) == Revenue(a) + Revenue(b)
    ensures Expenses(a + b) == Expenses(a) + Expenses(b)
  {
    RevenueIsSumWhere(a + b);
    RevenueIsSumWhere(a);
    RevenueIsSumWhere(b);
    ExpensesIsSumWhere(a + b);
    ExpensesIsSumWhere(a);
    ExpensesIsSumWhere(b);
    SumWhereAppend(a, b, IsCompletedIncome);
    SumWhereAppend(a, b, IsCompletedExpense);
  }

  /** A transaction that is not completed changes neither total, wherever it stands. */
  lemma PendingTransactionIsIgnored(a: seq<Transaction>, t: Transaction, b: seq<Transaction>)
    requires t.status != "completed"
    ensures Revenue(a + [t] + b) == Revenue(a + b)
    ensures Expenses(a + [t] + b) == Expenses(a + b)
  {
    TotalsAreAdditive(a + [t], b);
    TotalsAreAdditive(a, [t]);
    TotalsAreAdditive(a, b);
    assert Filter([t], IsCompletedIncome) == [];
    assert Filter([t], IsCompletedExpense) == [];
  }

  /** The kinds of transaction that enter some total. */
  predicate IsCompletedIncomeOrExpense(t: Transaction)
  {
    IsCompletedIncome(t) || IsCompletedExpense(t)
  }

  /**
   * No transaction is counted twice: revenue plus expenses is exactly the
   * sum over the completed transactions that are income or expense.
   */
  lemma {:induction false} TotalsAreExclusive(s: seq<Transaction>)
    ensures SumWhere(s, IsCompletedIncome) + SumWhere(s, IsCompletedExpense)
         == SumWhere(s, IsCompletedIncomeOrExpense)
  {
    if s != [] {
      assert !(IsCompletedIncome(s[0]) && IsCompletedExpense(s[0]));
      TotalsAreExclusive(s[1..]);
    }
  }

  /** With only non-negative amounts, both totals are non-negative. */
  lemma {:induction false} TotalsNonNegative(s: seq<Transaction>, p: Transaction -> bool)
    requires forall t :: t in s ==> t.amount >= 0
    ensures SumWhere(s, p) >= 0
  {
    if s != [] {
      assert s[0] in s;
      TotalsNonNegative(s[1..], p);
    }
  }
}
