/**
 * The `Transactions` page (src/pages/Transactions.tsx): type and status
 * filters over the transaction list, and the income/expense totals of what
 * passes them. Amounts are integer cents.
 */
module Transactions {
  import opened Seqs

  datatype Status = Completed | Pending | Failed

  /** A transaction; its date string is not part of the model. */
  datatype Transaction = Transaction(
    id: string, customer: string, description: string, amount: int, status: Status, category: string)

  /** The filter popover's checkboxes. */
  datatype Filters = Filters(showIncome: bool, showExpense: bool, completed: bool, pending: bool, failed: bool)

  /** Everything ticked: the initial filters. */
  const AllShown := Filters(true, true, true, true, true)

  /** `filters.statuses[status]` */
  predicate StatusShown(f: Filters, s: Status) {
    match s
    case Completed => f.completed
    case Pending => f.pending
    case Failed => f.failed
  }

  /** The filter callback: income hidden, expense hidden, or status unticked drops the entry. */
  predicate Keep(f: Filters, t: Transaction) {
    if t.amount > 0 && !f.showIncome then false
    else if t.amount < 0 && !f.showExpense then false
    else StatusShown(f, t.status)
  }

  /** `filteredTransactions` */
  function FilterTransactions(f: Filters, ts: seq<Transaction>): (r: seq<Transaction>)
    ensures IsSubseq(r, ts)
    ensures forall i :: 0 <= i < |r| ==> Keep(f, r[i])
  {
    FilterIsSubseq(ts, (t: Transaction) => Keep(f, t));
    Filter(ts, (t: Transaction) => Keep(f, t))
  }

  /**
   * An entry survives exactly when it is not income with income hidden, not
   * an expense with expenses hidden, and its status is ticked; a zero amount
   * is neither income nor expense here.
   */
  lemma {:induction false} FilterTransactionsMembers(f: Filters, ts: seq<Transaction>, t: Transaction)
    ensures t in FilterTransactions(f, ts) <==>
              t in ts && (t.amount > 0 ==> f.showIncome) && (t.amount < 0 ==> f.showExpense) && StatusShown(f, t.status)
  {
    FilterMembers(ts, (t: Transaction) => Keep(f, t), t);
  }

  /** Every copy of a kept entry survives, and no copy of a dropped one. */
  lemma FilterTransactionsCount(f: Filters, ts: seq<Transaction>, t: Transaction)
    ensures multiset(FilterTransactions(f, ts))[t] == if Keep(f, t) then multiset(ts)[t] else 0
  {
    FilterCount(ts, (t: Transaction) => Keep(f, t), t);
  }

  /** With every box ticked the list is shown whole. */
  lemma {:induction false} AllShownKeepsAll(ts: seq<Transaction>)
    ensures FilterTransactions(AllShown, ts) == ts
  {
    FilterAll(ts, (t: Transaction) => Keep(AllShown, t));
  }

  /** Σ of the positive amounts. */
  function SumIncome(ts: seq<Transaction>): (r: int)
    ensures r >= 0
  {
    if ts == [] then 0
    else
      var t := ts[|ts| - 1];
      SumIncome(ts[..|ts| - 1]) + (if t.amount > 0 then t.amount else 0)
  }

  /** Σ |amount| over the amounts that are not positive. */
  function SumExpense(ts: seq<Transaction>): (r: int)
    ensures r >= 0
  {
    if ts == [] then 0
    else
      var t := ts[|ts| - 1];
      SumExpense(ts[..|ts| - 1]) + (if t.amount > 0 then 0 else -t.amount)
  }

  /** Σ of the amounts. */
  function Sum(ts: seq<Transaction>): int {
    if ts == [] then 0 else Sum(ts[..|ts| - 1]) + ts[|ts| - 1].amount
  }

  /** The net balance `income - expense` is the plain sum of the amounts. */
  lemma {:induction false} NetIsSum(ts: seq<Transaction>)
    ensures SumIncome(ts) - SumExpense(ts) == Sum(ts)
  {
    if ts != [] {
      NetIsSum(ts[..|ts| - 1]);
    }
  }

  /** The `reduce` that accumulates income and expense in one pass. */
  method ComputeTotals(ts: seq<Transaction>) returns (income: int, expense: int)
    ensures income == SumIncome(ts) && expense == SumExpense(ts)
    ensures income >= 0 && expense >= 0 && income - expense == Sum(ts)
  {
    income, expense := 0, 0;
    var i := 0;
    while i < |ts|
      invariant 0 <= i <= |ts|
      invariant income == SumIncome(ts[..i]) && expense == SumExpense(ts[..i])
    {
      var t := ts[i];
      if t.amount > 0 {
        income := income + t.amount;
      } else {
        expense := expense + (if t.amount < 0 then -t.amount else t.amount);
      }
      assert ts[..i + 1][..i] == ts[..i];
      i := i + 1;
    }
    assert ts[..i] == ts;
    NetIsSum(ts);
  }

  /** The page's state. */
  class TransactionsPage {
    var transactions: seq<Transaction>
    var isLoading: bool
    var filters: Filters

    /** Before the fetch completes: no transactions, loading, every box ticked. */
    constructor ()
      ensures transactions == [] && isLoading && filters == AllShown
    {
      transactions := [];
      isLoading := true;
      filters := AllShown;
    }

    /** The fetch effect completing with the fetched list. */
    method Loaded(ts: seq<Transaction>)
      modifies this
      ensures transactions == ts && !isLoading && filters == old(filters)
    {
      transactions := ts;
      isLoading := false;
    }

    /** The "Income" checkbox. */
    method SetShowIncome(checked: bool)
      modifies this
      ensures filters == old(filters).(showIncome := checked)
      ensures transactions == old(transactions) && isLoading == old(isLoading)
    {
      filters := filters.(showIncome := checked);
    }

    /** The "Expenses" checkbox. */
    method SetShowExpense(checked: bool)
      modifies this
      ensures filters == old(filters).(showExpense := checked)
      ensures transactions == old(transactions) && isLoading == old(isLoading)
    {
      filters := filters.(showExpense := checked);
    }

    /** A status checkbox: only that status's box changes. */
    method SetStatus(s: Status, checked: bool)
      modifies this
      ensures StatusShown(filters, s) == checked
      ensures forall s' :: s' != s ==> StatusShown(filters, s') == StatusShown(old(filters), s')
      ensures filters.showIncome == old(filters.showIncome) && filters.showExpense == old(filters.showExpense)
      ensures transactions == old(transactions) && isLoading == old(isLoading)
    {
      match s {
        case Completed => filters := filters.(completed := checked);
        case Pending => filters := filters.(pending := checked);
        case Failed => filters := filters.(failed := checked);
      }
    }

    /** The totals cards: income, expenses, and the net balance. */
    method Totals() returns (income: int, expense: int, net: int)
      ensures income == SumIncome(FilterTransactions(filters, transactions))
      ensures expense == SumExpense(FilterTransactions(filters, transactions))
      ensures net == Sum(FilterTransactions(filters, transactions))
    {
      income, expense := ComputeTotals(FilterTransactions(filters, transactions));
      net := income - expense;
    }
  }
}
