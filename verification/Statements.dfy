/**
The statements read off the journal. Every total of every report is one figure per account,
picked by the account's type and its net movement, added up over the chart of accounts.
*/
module Statements {
  import opened Options
  import opened Sums
  import opened Text
  import opened Ordering
  import opened Amounts
  import opened Ledger
  import opened Books
  import opened Journal

  /** What a statement takes from an account of this type that moved by this much. */
  type Column = (AccountType, Money) -> Money

  /** An account that did not move contributes nothing. */
  ghost predicate IgnoresIdle(column: Column) {
    forall kind :: column(kind, 0) == 0
  }

  function Cell(accounts: seq<Account>, entries: seq<Entry>, w: Window, column: Column): int -> int {
    id => if HasAccount(accounts, id) then column(accounts[id - 1].kind, Net(entries, w, id)) else 0
  }

  function ColumnTotal(accounts: seq<Account>, entries: seq<Entry>, w: Window, column: Column): Money {
    SumIds(|accounts|, Cell(accounts, entries, w, column))
  }

  function OnDebitSide(): Column {
    (kind: AccountType, net: Money) => if net >= 0 then net else 0
  }

  function OnCreditSide(): Column {
    (kind: AccountType, net: Money) => if net < 0 then -net else 0
  }

  /** The balance of one type of account, signed the way that type is read. */
  function HeldIn(which: AccountType): Column {
    (kind: AccountType, net: Money) => if kind == which then InNormalDirection(kind, net) else 0
  }

  /** Assets and expenses grow by debit, the other types by credit. */
  function InNormalDirection(kind: AccountType, net: Money): Money {
    if kind == Asset || kind == Expense then net else -net
  }

  function NetColumn(): Column {
    (kind: AccountType, net: Money) => net
  }

  function TotalHeld(s: State, w: Window, which: AccountType): Money {
    ColumnTotal(s.accounts, s.entries, w, HeldIn(which))
  }

  function NetProfit(s: State, w: Window): Money {
    TotalHeld(s, w, Income) - TotalHeld(s, w, Expense)
  }

  lemma ColumnsNetToZero(accounts: seq<Account>, entries: seq<Entry>, w: Window)
    requires GoodJournal(accounts, entries)
    ensures ColumnTotal(accounts, entries, w, NetColumn()) == 0
  {
    LedgerNetsToZero(accounts, entries, w);
    SumIdsSame(|accounts|, Cell(accounts, entries, w, NetColumn()), LedgerNet(entries, w));
  }

  /** The two sides of a trial balance agree over any window of any good journal. */
  lemma TrialBalanceAgrees(accounts: seq<Account>, entries: seq<Entry>, w: Window)
    requires GoodJournal(accounts, entries)
    ensures ColumnTotal(accounts, entries, w, OnDebitSide()) == ColumnTotal(accounts, entries, w, OnCreditSide())
  {
    ColumnsNetToZero(accounts, entries, w);
    SumIdsCombine(|accounts|, Cell(accounts, entries, w, NetColumn()),
                  Cell(accounts, entries, w, OnDebitSide()), Cell(accounts, entries, w, OnCreditSide()), -1);
  }

  lemma TrialBalanceAgreesWhenGood(accounts: seq<Account>, entries: seq<Entry>, w: Window)
    ensures GoodJournal(accounts, entries)
         ==> ColumnTotal(accounts, entries, w, OnDebitSide()) == ColumnTotal(accounts, entries, w, OnCreditSide())
  {
    if GoodJournal(accounts, entries) {
      TrialBalanceAgrees(accounts, entries, w);
    }
  }

  function OnSheet(): Column {
    (kind: AccountType, net: Money) => if kind == Income || kind == Expense then 0 else net
  }

  function Earned(): Column {
    (kind: AccountType, net: Money) => if kind == Income || kind == Expense then -net else 0
  }

  function Owed(): Column {
    (kind: AccountType, net: Money) => if kind == Liability || kind == Equity then -net else 0
  }

  /**
  Assets equal liabilities plus equity plus the profit to date: the five types partition the
  chart, and their signed balances come to the net of the whole journal.
  */
  lemma BalanceSheetAgrees(accounts: seq<Account>, entries: seq<Entry>, w: Window)
    requires GoodJournal(accounts, entries)
    ensures ColumnTotal(accounts, entries, w, HeldIn(Asset))
         == ColumnTotal(accounts, entries, w, HeldIn(Liability)) + ColumnTotal(accounts, entries, w, HeldIn(Equity))
            + (ColumnTotal(accounts, entries, w, HeldIn(Income)) - ColumnTotal(accounts, entries, w, HeldIn(Expense)))
  {
    ColumnsNetToZero(accounts, entries, w);
    ColumnsCombine(accounts, entries, w, Owed(), HeldIn(Liability), HeldIn(Equity), 1);
    ColumnsCombine(accounts, entries, w, OnSheet(), HeldIn(Asset), Owed(), -1);
    ColumnsCombine(accounts, entries, w, Earned(), HeldIn(Income), HeldIn(Expense), -1);
    ColumnsCombine(accounts, entries, w, NetColumn(), OnSheet(), Earned(), -1);
  }

  lemma BalanceSheetAgreesWhenGood(accounts: seq<Account>, entries: seq<Entry>, w: Window)
    ensures GoodJournal(accounts, entries)
         ==> ColumnTotal(accounts, entries, w, HeldIn(Asset))
             == ColumnTotal(accounts, entries, w, HeldIn(Liability)) + ColumnTotal(accounts, entries, w, HeldIn(Equity))
                + (ColumnTotal(accounts, entries, w, HeldIn(Income)) - ColumnTotal(accounts, entries, w, HeldIn(Expense)))
  {
    if GoodJournal(accounts, entries) {
      BalanceSheetAgrees(accounts, entries, w);
    }
  }

  lemma ColumnsCombine(accounts: seq<Account>, entries: seq<Entry>, w: Window, f: Column, g: Column, h: Column, k: int)
    requires forall kind, net :: f(kind, net) == g(kind, net) + k * h(kind, net)
    ensures ColumnTotal(accounts, entries, w, f) == ColumnTotal(accounts, entries, w, g) + k * ColumnTotal(accounts, entries, w, h)
  {
    forall id | 1 <= id <= |accounts|
      ensures Cell(accounts, entries, w, f)(id) == Cell(accounts, entries, w, g)(id) + k * Cell(accounts, entries, w, h)(id)
    {
      var kind, net := accounts[id - 1].kind, Net(entries, w, id);
      assert f(kind, net) == g(kind, net) + k * h(kind, net);
    }
    SumIdsCombine(|accounts|, Cell(accounts, entries, w, f), Cell(accounts, entries, w, g), Cell(accounts, entries, w, h), k);
  }

  /**
  The books balance in every reachable state: from any good journal, after any steps in any
  order, every trial balance has equal sides, every balance sheet balances, and the earnings it
  shows are the profit from the beginning of time to its date.
  */
  lemma BooksAlwaysBalance(s: State, steps: seq<Step>, w: Window)
    requires GoodJournal(s.accounts, s.entries)
    ensures var t := Run(s, steps);
            && ColumnTotal(t.accounts, t.entries, w, OnDebitSide()) == ColumnTotal(t.accounts, t.entries, w, OnCreditSide())
            && TotalHeld(t, w, Asset) == TotalHeld(t, w, Liability) + TotalHeld(t, w, Equity) + NetProfit(t, w)
  {
    var t := Run(s, steps);
    RunKeepsJournal(s, steps);
    TrialBalanceAgrees(t.accounts, t.entries, w);
    BalanceSheetAgrees(t.accounts, t.entries, w);
  }

  // ---- closed books ----

  ghost predicate WholeWindowLocked(s: State, w: Window) {
    forall d :: w.Holds(d) ==> Locked(s.periods, d)
  }

  /** The window is inside locked periods when each of the steps is attempted. */
  ghost predicate StaysLocked(s: State, steps: seq<Step>, w: Window) {
    steps != [] ==>
      && StaysLocked(s, steps[..|steps| - 1], w)
      && WholeWindowLocked(Run(s, steps[..|steps| - 1]), w)
  }

  /** Nothing the journal gains moves anything in a window that stayed locked. */
  lemma {:induction false} LockedWindowStandsStill(s: State, steps: seq<Step>, w: Window, f: Line -> int)
    requires StaysLocked(s, steps, w)
    ensures Total(Run(s, steps).entries, w, f) == Total(s.entries, w, f)
  {
    if steps != [] {
      LockedWindowStandsStill(s, steps[..|steps| - 1], w, f);
      var prior := Run(s, steps[..|steps| - 1]);
      StepGrowsJournal(prior, steps[|steps| - 1]);
      var added := NewEntry(prior, Run(s, steps));
      if Run(s, steps).entries != prior.entries {
        TotalGrows(prior.entries, added.value, w, f);
      }
    }
  }

  lemma CellStandsStill(s: State, steps: seq<Step>, w: Window, column: Column, id: Id)
    requires GoodJournal(s.accounts, s.entries) && IgnoresIdle(column)
    requires StaysLocked(s, steps, w)
    requires HasAccount(Run(s, steps).accounts, id)
    ensures var t := Run(s, steps);
            Cell(t.accounts, t.entries, w, column)(id) == Cell(s.accounts, s.entries, w, column)(id)
  {
    RunKeepsJournal(s, steps);
    LockedWindowStandsStill(s, steps, w, NetTo(id));
    SameNetSameCell(s, Run(s, steps), w, column, id);
  }

  lemma SameNetSameCell(s: State, t: State, w: Window, column: Column, id: Id)
    requires GoodJournal(s.accounts, s.entries) && IgnoresIdle(column) && ChartKept(s, t)
    requires Net(t.entries, w, id) == Net(s.entries, w, id) && HasAccount(t.accounts, id)
    ensures Cell(t.accounts, t.entries, w, column)(id) == Cell(s.accounts, s.entries, w, column)(id)
  {
    if !HasAccount(s.accounts, id) || !HasPostings(s.entries, id) {
      UntouchedNetsToZero(s.entries, w, id);
      IdleCell(s.accounts, s.entries, w, column, id);
      IdleCell(t.accounts, t.entries, w, column, id);
    } else {
      assert t.accounts[id - 1].kind == s.accounts[id - 1].kind;
    }
  }

  lemma IdleCell(accounts: seq<Account>, entries: seq<Entry>, w: Window, column: Column, id: Id)
    requires IgnoresIdle(column) && Net(entries, w, id) == 0
    ensures Cell(accounts, entries, w, column)(id) == 0
  {
    if HasAccount(accounts, id) {
      assert column(accounts[id - 1].kind, 0) == 0;
    }
  }

  /**
  Closed books stay closed. While every date of a window lies in a locked period, any figure any
  statement shows for that window is the same after the run as before it: no entry arrives, and
  no account that was posted to changes type.
  */
  lemma ClosedBooksStayClosed(s: State, steps: seq<Step>, w: Window, column: Column)
    requires GoodJournal(s.accounts, s.entries) && IgnoresIdle(column)
    requires StaysLocked(s, steps, w)
    ensures var t := Run(s, steps);
            ColumnTotal(t.accounts, t.entries, w, column) == ColumnTotal(s.accounts, s.entries, w, column)
  {
    var t := Run(s, steps);
    assert |s.accounts| <= |t.accounts| by {
      RunKeepsJournal(s, steps);
    }
    forall id | 1 <= id <= |t.accounts|
      ensures Cell(t.accounts, t.entries, w, column)(id) == Cell(s.accounts, s.entries, w, column)(id)
    {
      CellStandsStill(s, steps, w, column, id);
    }
    SumIdsSame(|t.accounts|, Cell(t.accounts, t.entries, w, column), Cell(s.accounts, s.entries, w, column));
    SumIdsBeyond(|s.accounts|, |t.accounts|, Cell(s.accounts, s.entries, w, column));
  }

  lemma {:induction false} SumIdsBeyond(n: nat, m: nat, f: int -> int)
    requires n <= m
    requires forall i :: n < i <= m ==> f(i) == 0
    ensures SumIds(m, f) == SumIds(n, f)
    decreases m
  {
    if m > n {
      SumIdsBeyond(n, m - 1, f);
    }
  }

  /** In particular the trial balance and the profit and loss of a closed window. */
  lemma ClosedStatements(s: State, steps: seq<Step>, w: Window)
    requires GoodJournal(s.accounts, s.entries) && StaysLocked(s, steps, w)
    ensures var t := Run(s, steps);
            && ColumnTotal(t.accounts, t.entries, w, OnDebitSide()) == ColumnTotal(s.accounts, s.entries, w, OnDebitSide())
            && ColumnTotal(t.accounts, t.entries, w, OnCreditSide()) == ColumnTotal(s.accounts, s.entries, w, OnCreditSide())
            && NetProfit(t, w) == NetProfit(s, w)
  {
    ClosedBooksStayClosed(s, steps, w, OnDebitSide());
    ClosedBooksStayClosed(s, steps, w, OnCreditSide());
    ClosedBooksStayClosed(s, steps, w, HeldIn(Income));
    ClosedBooksStayClosed(s, steps, w, HeldIn(Expense));
  }

  // ---- the rows of a statement ----

  /** By code; ids settle what codes do not. */
  function CodeOrder(accounts: seq<Account>): Before {
    (a: int, b: int) =>
      if HasAccount(accounts, a) && HasAccount(accounts, b) && accounts[a - 1].code != accounts[b - 1].code
      then Less(accounts[a - 1].code, accounts[b - 1].code)
      else a < b
  }

  lemma CodesAreOrdered(accounts: seq<Account>)
    ensures IsOrder(|accounts|, CodeOrder(accounts))
  {
    var before := CodeOrder(accounts);
    forall a, b | 1 <= a <= |accounts| && 1 <= b <= |accounts| && a != b
      ensures before(a, b) || before(b, a)
    {
      LessIsTotal(accounts[a - 1].code, accounts[b - 1].code);
    }
    forall a, b, c | 1 <= a <= |accounts| && 1 <= b <= |accounts| && 1 <= c <= |accounts| && before(a, b) && before(b, c)
      ensures before(a, c)
    {
      var x, y, z := accounts[a - 1].code, accounts[b - 1].code, accounts[c - 1].code;
      if x != y && y != z {
        LessIsTransitive(x, y, z);
        LessIsTotal(x, z);
      }
    }
  }

  /** The chart of accounts in the order every report lists it. */
  function ByCode(accounts: seq<Account>): seq<Id> {
    Ordered(|accounts|, _ => true, CodeOrder(accounts))
  }

  lemma ByCodeIsExact(accounts: seq<Account>)
    ensures InOrder(ByCode(accounts), CodeOrder(accounts)) && AreIds(ByCode(accounts), |accounts|)
    ensures forall id :: id in ByCode(accounts) <==> HasAccount(accounts, id)
  {
    CodesAreOrdered(accounts);
    OrderedIsExact(|accounts|, _ => true, CodeOrder(accounts));
  }

  datatype ReportLine = ReportLine(account: Id, amount: Money)

  /** The rows of a statement over a list of accounts. */
  function Listing(f: int -> int, ids: seq<Id>): seq<ReportLine> {
    if ids == [] then []
    else
      var last := ids[|ids| - 1];
      Listing(f, ids[..|ids| - 1]) + if f(last) != 0 then [ReportLine(last, f(last))] else []
  }

  function RowAmount(): ReportLine -> int {
    (row: ReportLine) => row.amount
  }

  /** Each listed account with what it holds, none at zero, in the list's order, and none that holds something left out. */
  ghost predicate Lists(rows: seq<ReportLine>, f: int -> int, ids: seq<Id>, before: Before) {
    && (forall k :: 0 <= k < |rows| ==> rows[k].account in ids && rows[k].amount == f(rows[k].account) != 0)
    && (forall j, k :: 0 <= j < k < |rows| ==> before(rows[j].account, rows[k].account))
    && (forall id :: id in ids && f(id) != 0 ==> ReportLine(id, f(id)) in rows)
  }

  lemma ListsNext(rows: seq<ReportLine>, f: int -> int, ids: seq<Id>, last: Id, before: Before)
    requires Lists(rows, f, ids, before) && forall i :: 0 <= i < |ids| ==> before(ids[i], last)
    ensures f(last) == 0 ==> Lists(rows, f, ids + [last], before)
    ensures f(last) != 0 ==> Lists(rows + [ReportLine(last, f(last))], f, ids + [last], before)
  {
  }

  lemma {:induction false} ListingInOrder(f: int -> int, ids: seq<Id>, before: Before)
    requires InOrder(ids, before)
    ensures Lists(Listing(f, ids), f, ids, before)
  {
    if ids != [] {
      var rest, last := ids[..|ids| - 1], ids[|ids| - 1];
      ListingInOrder(f, rest, before);
      ListsNext(Listing(f, rest), f, rest, last, before);
      assert ids == rest + [last];
    }
  }

  /** A statement lists exactly the accounts of the chart that hold something, once each, by code. */
  lemma ListingIsExact(f: int -> int, accounts: seq<Account>)
    ensures var rows := Listing(f, ByCode(accounts));
            && (forall k :: 0 <= k < |rows| ==> HasAccount(accounts, rows[k].account) && rows[k].amount == f(rows[k].account) != 0)
            && (forall j, k :: 0 <= j < k < |rows| ==> CodeOrder(accounts)(rows[j].account, rows[k].account))
            && (forall id :: HasAccount(accounts, id) && f(id) != 0 ==> ReportLine(id, f(id)) in rows)
  {
    ByCodeIsExact(accounts);
    ListingInOrder(f, ByCode(accounts), CodeOrder(accounts));
  }

  lemma {:induction false} ListingSum(f: int -> int, ids: seq<Id>)
    ensures Sum(Listing(f, ids), RowAmount()) == Sum(ids, f)
  {
    if ids != [] {
      var rest, last := ids[..|ids| - 1], ids[|ids| - 1];
      ListingSum(f, rest);
      if f(last) != 0 {
        SumSnoc(Listing(f, rest), ReportLine(last, f(last)), RowAmount());
      } else {
        assert Listing(f, ids) == Listing(f, rest);
      }
    }
  }

  /** The rows a statement shows come to the total it shows. */
  lemma ListingAddsUp(f: int -> int, accounts: seq<Account>)
    ensures Sum(Listing(f, ByCode(accounts)), RowAmount()) == SumIds(|accounts|, f)
  {
    ListingSum(f, ByCode(accounts));
    SumOrdered(|accounts|, CodeOrder(accounts), f);
  }
}
