/**
The report loops: one pass over the balances of every account, each put on its side or under
its type. What a pass adds up is a column of those balances; read off the journal, it is the
same column of the statements.
*/
module Reports {
  import opened Sums
  import opened Ordering
  import opened Amounts
  import opened Ledger
  import opened Statements

  datatype Balance = Balance(account: Id, kind: AccountType, debit: Money, credit: Money)

  datatype Trial = Trial(rows: seq<ReportLine>, totalDebit: Money, totalCredit: Money, balanced: bool)

  datatype Profit = Profit(
    income: seq<ReportLine>, spending: seq<ReportLine>, totalIncome: Money, totalExpenses: Money, netProfit: Money)

  datatype Sheet = Sheet(
    assets: seq<ReportLine>, liabilities: seq<ReportLine>, equity: seq<ReportLine>,
    totalAssets: Money, totalLiabilities: Money, totalEquity: Money, currentEarnings: Money, balanced: bool)

  /** What each account puts in a column. */
  function Of(column: Column): Balance -> int {
    (b: Balance) => column(b.kind, b.debit - b.credit)
  }

  function TotalOf(balances: seq<Balance>, column: Column): Money {
    Sum(balances, Of(column))
  }

  /** Those that put something in it, in the order of the balances. */
  function RowsOf(balances: seq<Balance>, column: Column): seq<ReportLine> {
    if balances == [] then []
    else
      var last := balances[|balances| - 1];
      RowsOf(balances[..|balances| - 1], column) + if Of(column)(last) != 0 then [ReportLine(last.account, Of(column)(last))] else []
  }

  lemma Next(balances: seq<Balance>, i: nat, column: Column)
    requires i < |balances|
    ensures TotalOf(balances[..i + 1], column) == TotalOf(balances[..i], column) + Of(column)(balances[i])
    ensures RowsOf(balances[..i + 1], column)
         == RowsOf(balances[..i], column) + if Of(column)(balances[i]) != 0 then [ReportLine(balances[i].account, Of(column)(balances[i]))] else []
  {
    assert balances[..i + 1][..i] == balances[..i];
  }

  function DebitedOver(which: AccountType): Balance -> int {
    (b: Balance) => if b.kind == which then b.debit - b.credit else 0
  }

  function CreditedOver(which: AccountType): Balance -> int {
    (b: Balance) => if b.kind == which then b.credit - b.debit else 0
  }

  /** Over any balances: an asset or expense is reported by debit less credit, the other types by credit less debit. */
  lemma ReportedInDebitsAndCredits(balances: seq<Balance>, which: AccountType)
    ensures which == Asset || which == Expense ==>
      && TotalOf(balances, HeldIn(which)) == Sum(balances, DebitedOver(which))
      && forall b :: Of(HeldIn(which))(b) == DebitedOver(which)(b)
    ensures which == Liability || which == Equity || which == Income ==>
      && TotalOf(balances, HeldIn(which)) == Sum(balances, CreditedOver(which))
      && forall b :: Of(HeldIn(which))(b) == CreditedOver(which)(b)
  {
    if which == Asset || which == Expense {
      SumSame(balances, Of(HeldIn(which)), DebitedOver(which));
    } else {
      SumSame(balances, Of(HeldIn(which)), CreditedOver(which));
    }
  }

  lemma SheetTotals(balances: seq<Balance>)
    ensures TotalOf(balances, HeldIn(Asset)) == Sum(balances, DebitedOver(Asset))
    ensures TotalOf(balances, HeldIn(Liability)) == Sum(balances, CreditedOver(Liability))
    ensures TotalOf(balances, HeldIn(Equity)) == Sum(balances, CreditedOver(Equity))
    ensures TotalOf(balances, HeldIn(Income)) == Sum(balances, CreditedOver(Income))
    ensures TotalOf(balances, HeldIn(Expense)) == Sum(balances, DebitedOver(Expense))
  {
    ReportedInDebitsAndCredits(balances, Asset);
    ReportedInDebitsAndCredits(balances, Liability);
    ReportedInDebitsAndCredits(balances, Equity);
    ReportedInDebitsAndCredits(balances, Income);
    ReportedInDebitsAndCredits(balances, Expense);
  }

  /** Every account with a movement on the side it sits on, the two totals, and whether they agree. */
  method TrialBalance(balances: seq<Balance>) returns (tb: Trial)
    ensures tb.rows == RowsOf(balances, NetColumn())
    ensures tb.totalDebit == TotalOf(balances, OnDebitSide()) && tb.totalCredit == TotalOf(balances, OnCreditSide())
    ensures tb.balanced <==> tb.totalDebit == tb.totalCredit
  {
    var rows, totalDebit, totalCredit := [], 0, 0;
    for i := 0 to |balances|
      invariant rows == RowsOf(balances[..i], NetColumn())
      invariant totalDebit == TotalOf(balances[..i], OnDebitSide())
      invariant totalCredit == TotalOf(balances[..i], OnCreditSide())
    {
      Next(balances, i, NetColumn());
      Next(balances, i, OnDebitSide());
      Next(balances, i, OnCreditSide());
      var net := balances[i].debit - balances[i].credit;
      if net != 0 {
        rows := rows + [ReportLine(balances[i].account, net)];
        if net >= 0 {
          totalDebit := totalDebit + net;
        } else {
          totalCredit := totalCredit - net;
        }
      }
    }
    assert balances[..|balances|] == balances;
    return Trial(rows, totalDebit, totalCredit, totalDebit == totalCredit);
  }

  method ProfitAndLoss(balances: seq<Balance>) returns (pl: Profit)
    ensures pl.income == RowsOf(balances, HeldIn(Income)) && pl.totalIncome == TotalOf(balances, HeldIn(Income))
    ensures pl.spending == RowsOf(balances, HeldIn(Expense)) && pl.totalExpenses == TotalOf(balances, HeldIn(Expense))
    ensures pl.totalIncome == Sum(balances, CreditedOver(Income)) && pl.totalExpenses == Sum(balances, DebitedOver(Expense))
    ensures pl.netProfit == pl.totalIncome - pl.totalExpenses
  {
    var income, spending, totalIncome, totalExpenses := [], [], 0, 0;
    for i := 0 to |balances|
      invariant income == RowsOf(balances[..i], HeldIn(Income))
      invariant totalIncome == TotalOf(balances[..i], HeldIn(Income))
      invariant spending == RowsOf(balances[..i], HeldIn(Expense))
      invariant totalExpenses == TotalOf(balances[..i], HeldIn(Expense))
    {
      Next(balances, i, HeldIn(Income));
      Next(balances, i, HeldIn(Expense));
      var b := balances[i];
      if b.kind == Income {
        var amount := b.credit - b.debit;
        if amount != 0 {
          income := income + [ReportLine(balances[i].account, amount)];
          totalIncome := totalIncome + amount;
        }
      } else if b.kind == Expense {
        var amount := b.debit - b.credit;
        if amount != 0 {
          spending := spending + [ReportLine(balances[i].account, amount)];
          totalExpenses := totalExpenses + amount;
        }
      }
    }
    assert balances[..|balances|] == balances;
    ReportedInDebitsAndCredits(balances, Income);
    ReportedInDebitsAndCredits(balances, Expense);
    return Profit(income, spending, totalIncome, totalExpenses, totalIncome - totalExpenses);
  }

  /** The position; what was earned and not yet closed stands beside equity. */
  method BalanceSheet(balances: seq<Balance>) returns (bs: Sheet)
    ensures bs.assets == RowsOf(balances, HeldIn(Asset)) && bs.totalAssets == TotalOf(balances, HeldIn(Asset))
    ensures bs.liabilities == RowsOf(balances, HeldIn(Liability)) && bs.totalLiabilities == TotalOf(balances, HeldIn(Liability))
    ensures bs.equity == RowsOf(balances, HeldIn(Equity)) && bs.totalEquity == TotalOf(balances, HeldIn(Equity))
    ensures bs.currentEarnings == TotalOf(balances, HeldIn(Income)) - TotalOf(balances, HeldIn(Expense))
    ensures bs.totalAssets == Sum(balances, DebitedOver(Asset)) && bs.totalLiabilities == Sum(balances, CreditedOver(Liability))
    ensures bs.totalEquity == Sum(balances, CreditedOver(Equity))
    ensures bs.currentEarnings == Sum(balances, CreditedOver(Income)) - Sum(balances, DebitedOver(Expense))
    ensures bs.balanced <==> bs.totalAssets == bs.totalLiabilities + bs.totalEquity + bs.currentEarnings
  {
    var assets, liabilities, equity := [], [], [];
    var totalAssets, totalLiabilities, totalEquity, income, spending := 0, 0, 0, 0, 0;
    for i := 0 to |balances|
      invariant assets == RowsOf(balances[..i], HeldIn(Asset))
      invariant liabilities == RowsOf(balances[..i], HeldIn(Liability))
      invariant equity == RowsOf(balances[..i], HeldIn(Equity))
      invariant totalAssets == TotalOf(balances[..i], HeldIn(Asset))
      invariant totalLiabilities == TotalOf(balances[..i], HeldIn(Liability))
      invariant totalEquity == TotalOf(balances[..i], HeldIn(Equity))
      invariant income == TotalOf(balances[..i], HeldIn(Income))
      invariant spending == TotalOf(balances[..i], HeldIn(Expense))
    {
      forall which {
        Next(balances, i, HeldIn(which));
      }
      var debitNet := balances[i].debit - balances[i].credit;
      var creditNet := -debitNet;
      match balances[i].kind
      case Asset =>
        if debitNet != 0 {
          assets := assets + [ReportLine(balances[i].account, debitNet)];
          totalAssets := totalAssets + debitNet;
        }
      case Liability =>
        if creditNet != 0 {
          liabilities := liabilities + [ReportLine(balances[i].account, creditNet)];
          totalLiabilities := totalLiabilities + creditNet;
        }
      case Equity =>
        if creditNet != 0 {
          equity := equity + [ReportLine(balances[i].account, creditNet)];
          totalEquity := totalEquity + creditNet;
        }
      case Income => income := income + creditNet;
      case Expense => spending := spending + debitNet;
    }
    assert balances[..|balances|] == balances;
    SheetTotals(balances);
    return Sheet(assets, liabilities, equity, totalAssets, totalLiabilities, totalEquity, income - spending,
                 totalAssets == totalLiabilities + totalEquity + (income - spending));
  }

  // ---- balances read off the journal ----

  /** Every account's debit and credit totals over a window, by code. */
  ghost predicate AreBalances(balances: seq<Balance>, accounts: seq<Account>, entries: seq<Entry>, w: Window) {
    var ids := ByCode(accounts);
    && |balances| == |ids|
    && forall i :: 0 <= i < |ids| ==> balances[i] == BalanceOf(accounts, entries, w, ids[i])
  }

  function BalanceOf(accounts: seq<Account>, entries: seq<Entry>, w: Window, id: Id): Balance {
    Balance(id, if HasAccount(accounts, id) then accounts[id - 1].kind else Asset,
            Total(entries, w, DebitTo(id)), Total(entries, w, CreditTo(id)))
  }

  lemma SameCell(accounts: seq<Account>, entries: seq<Entry>, w: Window, column: Column, id: Id)
    requires HasAccount(accounts, id)
    ensures Of(column)(BalanceOf(accounts, entries, w, id)) == Cell(accounts, entries, w, column)(id)
  {
    NetIsDebitLessCredit(entries, w, id);
  }

  lemma {:induction false} RowsAreTheListing(balances: seq<Balance>, ids: seq<Id>, column: Column, f: int -> int)
    requires |balances| == |ids|
    requires forall i :: 0 <= i < |ids| ==> balances[i].account == ids[i] && Of(column)(balances[i]) == f(ids[i])
    ensures RowsOf(balances, column) == Listing(f, ids)
  {
    if ids != [] {
      RowsAreTheListing(balances[..|ids| - 1], ids[..|ids| - 1], column, f);
    }
  }

  /** A report over those balances is a statement read off the journal. */
  lemma ReadOffTheJournal(balances: seq<Balance>, accounts: seq<Account>, entries: seq<Entry>, w: Window, column: Column)
    requires AreBalances(balances, accounts, entries, w)
    ensures TotalOf(balances, column) == ColumnTotal(accounts, entries, w, column)
    ensures RowsOf(balances, column) == Listing(Cell(accounts, entries, w, column), ByCode(accounts))
  {
    var ids, f := ByCode(accounts), Cell(accounts, entries, w, column);
    ByCodeIsExact(accounts);
    forall i | 0 <= i < |ids|
      ensures balances[i].account == ids[i] && Of(column)(balances[i]) == f(ids[i])
    {
      assert ids[i] in ids;
      SameCell(accounts, entries, w, column, ids[i]);
    }
    RowsAreTheListing(balances, ids, column, f);
    SumAlong(balances, ids, Of(column), f);
    SumOrdered(|accounts|, CodeOrder(accounts), f);
  }
}
