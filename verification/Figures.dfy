/**
What the figures of a statement are, in debits and credits: account by account, line by line, and
recording by recording.
*/
module Figures {
  import opened Options
  import opened Sums
  import opened Amounts
  import opened Ledger
  import opened Documents
  import opened Books
  import opened Journal
  import opened Statements
  import opened Reports
  import opened Soundness
  import opened Reconciliation

  // ---- account by account ----

  function DebitLessCredit(accounts: seq<Account>, entries: seq<Entry>, w: Window, which: AccountType): int -> int {
    id => if IsKind(accounts, id, which) then Total(entries, w, DebitTo(id)) - Total(entries, w, CreditTo(id)) else 0
  }

  function CreditLessDebit(accounts: seq<Account>, entries: seq<Entry>, w: Window, which: AccountType): int -> int {
    id => if IsKind(accounts, id, which) then Total(entries, w, CreditTo(id)) - Total(entries, w, DebitTo(id)) else 0
  }

  /** An asset or expense shows its debits less its credits over the window; the other types, the reverse. */
  lemma FigureOfAnAccount(accounts: seq<Account>, entries: seq<Entry>, w: Window, which: AccountType, id: Id)
    ensures Cell(accounts, entries, w, HeldIn(which))(id)
         == if which == Asset || which == Expense then DebitLessCredit(accounts, entries, w, which)(id)
            else CreditLessDebit(accounts, entries, w, which)(id)
  {
    NetIsDebitLessCredit(entries, w, id);
  }

  lemma TypeIsItsAccounts(accounts: seq<Account>, entries: seq<Entry>, w: Window, which: AccountType)
    ensures which == Asset || which == Expense ==>
      ColumnTotal(accounts, entries, w, HeldIn(which)) == SumIds(|accounts|, DebitLessCredit(accounts, entries, w, which))
    ensures which == Liability || which == Equity || which == Income ==>
      ColumnTotal(accounts, entries, w, HeldIn(which)) == SumIds(|accounts|, CreditLessDebit(accounts, entries, w, which))
  {
    forall id | 1 <= id <= |accounts|
      ensures Cell(accounts, entries, w, HeldIn(which))(id)
           == if which == Asset || which == Expense then DebitLessCredit(accounts, entries, w, which)(id)
              else CreditLessDebit(accounts, entries, w, which)(id)
    {
      FigureOfAnAccount(accounts, entries, w, which, id);
    }
    if which == Asset || which == Expense {
      SumIdsSame(|accounts|, Cell(accounts, entries, w, HeldIn(which)), DebitLessCredit(accounts, entries, w, which));
    } else {
      SumIdsSame(|accounts|, Cell(accounts, entries, w, HeldIn(which)), CreditLessDebit(accounts, entries, w, which));
    }
  }

  /** What the income accounts were credited beyond their debits, less what the expense accounts were debited beyond their credits. */
  lemma ProfitIsIncomeLessExpense(s: State, w: Window)
    ensures NetProfit(s, w)
         == SumIds(|s.accounts|, CreditLessDebit(s.accounts, s.entries, w, Income))
            - SumIds(|s.accounts|, DebitLessCredit(s.accounts, s.entries, w, Expense))
  {
    TypeIsItsAccounts(s.accounts, s.entries, w, Income);
    TypeIsItsAccounts(s.accounts, s.entries, w, Expense);
  }

  function DebitExcess(entries: seq<Entry>, w: Window): int -> int {
    id =>
      var debit, credit := Total(entries, w, DebitTo(id)), Total(entries, w, CreditTo(id));
      if debit > credit then debit - credit else 0
  }

  function CreditExcess(entries: seq<Entry>, w: Window): int -> int {
    id =>
      var debit, credit := Total(entries, w, DebitTo(id)), Total(entries, w, CreditTo(id));
      if credit > debit then credit - debit else 0
  }

  /** On a trial balance an account stands on the side that outweighs the other, with the excess. */
  lemma SideOfAnAccount(accounts: seq<Account>, entries: seq<Entry>, w: Window, id: Id)
    requires HasAccount(accounts, id)
    ensures Cell(accounts, entries, w, NetColumn())(id) == Total(entries, w, DebitTo(id)) - Total(entries, w, CreditTo(id))
    ensures Cell(accounts, entries, w, OnDebitSide())(id) == DebitExcess(entries, w)(id)
    ensures Cell(accounts, entries, w, OnCreditSide())(id) == CreditExcess(entries, w)(id)
  {
    NetIsDebitLessCredit(entries, w, id);
  }

  /** The two totals of a trial balance are the excesses of debit and the excesses of credit. */
  lemma SidesAreExcesses(accounts: seq<Account>, entries: seq<Entry>, w: Window)
    ensures ColumnTotal(accounts, entries, w, OnDebitSide()) == SumIds(|accounts|, DebitExcess(entries, w))
    ensures ColumnTotal(accounts, entries, w, OnCreditSide()) == SumIds(|accounts|, CreditExcess(entries, w))
  {
    forall id | 1 <= id <= |accounts|
      ensures Cell(accounts, entries, w, OnDebitSide())(id) == DebitExcess(entries, w)(id)
      ensures Cell(accounts, entries, w, OnCreditSide())(id) == CreditExcess(entries, w)(id)
    {
      SideOfAnAccount(accounts, entries, w, id);
    }
    SumIdsSame(|accounts|, Cell(accounts, entries, w, OnDebitSide()), DebitExcess(entries, w));
    SumIdsSame(|accounts|, Cell(accounts, entries, w, OnCreditSide()), CreditExcess(entries, w));
  }

  /** Every row of a statement of one type shows its account's debits and credits the way that type is read. */
  ghost predicate ShowsExcess(rows: seq<ReportLine>, f: int -> int) {
    forall k :: 0 <= k < |rows| ==> rows[k].amount == f(rows[k].account) != 0
  }

  lemma RowsAreExcesses(accounts: seq<Account>, entries: seq<Entry>, w: Window, which: AccountType)
    ensures var rows := Listing(Cell(accounts, entries, w, HeldIn(which)), ByCode(accounts));
            if which == Asset || which == Expense then ShowsExcess(rows, DebitLessCredit(accounts, entries, w, which))
            else ShowsExcess(rows, CreditLessDebit(accounts, entries, w, which))
  {
    var rows := Listing(Cell(accounts, entries, w, HeldIn(which)), ByCode(accounts));
    ListingIsExact(Cell(accounts, entries, w, HeldIn(which)), accounts);
    forall k | 0 <= k < |rows|
      ensures rows[k].amount == if which == Asset || which == Expense then DebitLessCredit(accounts, entries, w, which)(rows[k].account)
                                else CreditLessDebit(accounts, entries, w, which)(rows[k].account)
    {
      FigureOfAnAccount(accounts, entries, w, which, rows[k].account);
    }
  }

  /** A balance sheet in debits and credits: rows and totals of assets one way, of liabilities and equity the other. */
  ghost predicate SheetShows(sheet: Sheet, accounts: seq<Account>, entries: seq<Entry>, w: Window) {
    && ShowsExcess(sheet.assets, DebitLessCredit(accounts, entries, w, Asset))
    && ShowsExcess(sheet.liabilities, CreditLessDebit(accounts, entries, w, Liability))
    && ShowsExcess(sheet.equity, CreditLessDebit(accounts, entries, w, Equity))
    && sheet.totalAssets == SumIds(|accounts|, DebitLessCredit(accounts, entries, w, Asset))
    && sheet.totalLiabilities == SumIds(|accounts|, CreditLessDebit(accounts, entries, w, Liability))
    && sheet.totalEquity == SumIds(|accounts|, CreditLessDebit(accounts, entries, w, Equity))
    && sheet.currentEarnings
       == SumIds(|accounts|, CreditLessDebit(accounts, entries, w, Income)) - SumIds(|accounts|, DebitLessCredit(accounts, entries, w, Expense))
  }

  lemma SheetInDebitsAndCredits(sheet: Sheet, s: State, w: Window)
    requires sheet.assets == Listing(Cell(s.accounts, s.entries, w, HeldIn(Asset)), ByCode(s.accounts))
    requires sheet.liabilities == Listing(Cell(s.accounts, s.entries, w, HeldIn(Liability)), ByCode(s.accounts))
    requires sheet.equity == Listing(Cell(s.accounts, s.entries, w, HeldIn(Equity)), ByCode(s.accounts))
    requires sheet.totalAssets == TotalHeld(s, w, Asset) && sheet.totalLiabilities == TotalHeld(s, w, Liability)
    requires sheet.totalEquity == TotalHeld(s, w, Equity) && sheet.currentEarnings == NetProfit(s, w)
    ensures SheetShows(sheet, s.accounts, s.entries, w)
  {
    RowsAreExcesses(s.accounts, s.entries, w, Asset);
    RowsAreExcesses(s.accounts, s.entries, w, Liability);
    RowsAreExcesses(s.accounts, s.entries, w, Equity);
    TypeIsItsAccounts(s.accounts, s.entries, w, Asset);
    TypeIsItsAccounts(s.accounts, s.entries, w, Liability);
    TypeIsItsAccounts(s.accounts, s.entries, w, Equity);
    ProfitIsIncomeLessExpense(s, w);
  }

  // ---- line by line ----

  /** What a line adds to a type of account: debits add to assets and expenses, credits to the rest. */
  function Adds(accounts: seq<Account>, which: AccountType): Line -> int {
    (l: Line) =>
      if !IsKind(accounts, l.account, which) then 0
      else if which == Asset || which == Expense then l.debit - l.credit
      else l.credit - l.debit
  }

  function AddedOn(accounts: seq<Account>, lines: seq<Line>, which: AccountType): int -> int {
    id => if !IsKind(accounts, id, which) then 0 else if which == Asset || which == Expense then NetOn(lines, id) else -NetOn(lines, id)
  }

  function AddedBy(accounts: seq<Account>, l: Line, which: AccountType): int -> int {
    id => if id == l.account then Adds(accounts, which)(l) else 0
  }

  lemma {:induction false} LinesByType(accounts: seq<Account>, lines: seq<Line>, which: AccountType)
    requires forall i :: 0 <= i < |lines| ==> HasAccount(accounts, lines[i].account)
    ensures SumIds(|accounts|, AddedOn(accounts, lines, which)) == Sum(lines, Adds(accounts, which))
  {
    if lines == [] {
      SumIdsNone(|accounts|, AddedOn(accounts, lines, which));
    } else {
      var rest, last := lines[..|lines| - 1], lines[|lines| - 1];
      LinesByType(accounts, rest, which);
      SumIdsOnly(|accounts|, AddedBy(accounts, last, which), last.account);
      SumIdsCombine(|accounts|, AddedOn(accounts, lines, which), AddedOn(accounts, rest, which), AddedBy(accounts, last, which), 1);
    }
  }

  lemma NothingHeld(accounts: seq<Account>, w: Window, which: AccountType)
    ensures ColumnTotal(accounts, [], w, HeldIn(which)) == 0
  {
    forall id
      ensures Cell(accounts, [], w, HeldIn(which))(id) == 0
    {
      assert Net([], w, id) == 0;
    }
    SumIdsNone(|accounts|, Cell(accounts, [], w, HeldIn(which)));
  }

  lemma EntryAddsToType(accounts: seq<Account>, entries: seq<Entry>, e: Entry, w: Window, which: AccountType)
    ensures ColumnTotal(accounts, entries + [e], w, HeldIn(which))
         == ColumnTotal(accounts, entries, w, HeldIn(which))
            + if w.Holds(e.date) then SumIds(|accounts|, AddedOn(accounts, e.lines, which)) else 0
  {
    var k := if w.Holds(e.date) then 1 else 0;
    var before, after := Cell(accounts, entries, w, HeldIn(which)), Cell(accounts, entries + [e], w, HeldIn(which));
    forall id | 1 <= id <= |accounts|
      ensures after(id) == before(id) + k * AddedOn(accounts, e.lines, which)(id)
    {
      TotalGrows(entries, e, w, NetTo(id));
    }
    SumIdsCombine(|accounts|, after, before, AddedOn(accounts, e.lines, which), k);
  }

  /** The total of a type is what the lines of the journal dated in the window add to it. */
  lemma {:induction false} TypeIsItsLines(accounts: seq<Account>, entries: seq<Entry>, w: Window, which: AccountType)
    requires GoodJournal(accounts, entries)
    ensures ColumnTotal(accounts, entries, w, HeldIn(which)) == Total(entries, w, Adds(accounts, which))
  {
    if entries == [] {
      NothingHeld(accounts, w, which);
    } else {
      var rest, last := entries[..|entries| - 1], entries[|entries| - 1];
      TypeIsItsLines(accounts, rest, w, which);
      assert GoodEntry(accounts, last) && entries == rest + [last];
      LinesByType(accounts, last.lines, which);
      EntryAddsToType(accounts, rest, last, w, which);
      TotalGrows(rest, last, w, Adds(accounts, which));
    }
  }

  // ---- recording by recording ----

  /** What an entry does to the total of a type. */
  lemma EntryMovesType(s: State, t: State, e: Entry, w: Window, which: AccountType)
    requires GoodJournal(s.accounts, s.entries) && GoodEntry(s.accounts, e)
    requires t.entries == s.entries + [e] && t.accounts == s.accounts
    ensures TotalHeld(t, w, which) == TotalHeld(s, w, which) + if w.Holds(e.date) then Sum(e.lines, Adds(s.accounts, which)) else 0
  {
    TypeIsItsLines(s.accounts, s.entries, w, which);
    TypeIsItsLines(t.accounts, t.entries, w, which);
    TotalGrows(s.entries, e, w, Adds(s.accounts, which));
  }

  /** The totals of the two states, type by type: assets, liabilities and equity by these amounts, and the profit by that. */
  ghost predicate Moves(s: State, t: State, w: Window, assets: Money, liabilities: Money, equity: Money, profit: Money) {
    && TotalHeld(t, w, Asset) == TotalHeld(s, w, Asset) + assets
    && TotalHeld(t, w, Liability) == TotalHeld(s, w, Liability) + liabilities
    && TotalHeld(t, w, Equity) == TotalHeld(s, w, Equity) + equity
    && NetProfit(t, w) == NetProfit(s, w) + profit
  }

  lemma EntryMoves(s: State, t: State, e: Entry, w: Window)
    requires GoodJournal(s.accounts, s.entries) && GoodEntry(s.accounts, e)
    requires t.entries == s.entries + [e] && t.accounts == s.accounts
    ensures w.Holds(e.date) ==>
      Moves(s, t, w, Sum(e.lines, Adds(s.accounts, Asset)), Sum(e.lines, Adds(s.accounts, Liability)), Sum(e.lines, Adds(s.accounts, Equity)),
            Sum(e.lines, Adds(s.accounts, Income)) - Sum(e.lines, Adds(s.accounts, Expense)))
    ensures !w.Holds(e.date) ==> Moves(s, t, w, 0, 0, 0, 0)
  {
    EntryMovesType(s, t, e, w, Asset);
    EntryMovesType(s, t, e, w, Liability);
    EntryMovesType(s, t, e, w, Equity);
    EntryMovesType(s, t, e, w, Income);
    EntryMovesType(s, t, e, w, Expense);
  }

  // ---- documents ----

  /** The accounts a document posts to are of the types they are meant for. */
  predicate PostsAsMeant(accounts: seq<Account>, d: Doc) {
    && IsKind(accounts, ArAccount(accounts), Asset)
    && (d.vat != 0 ==> IsKind(accounts, VatOutAccount(accounts), Liability))
    && forall j :: 0 <= j < |d.lines| ==> IsKind(accounts, d.lines[j].income, Income)
  }

  lemma {:induction false} NonzeroSums(lines: seq<Line>, f: Line -> int)
    requires forall l: Line :: l.debit == 0 && l.credit == 0 ==> f(l) == 0
    ensures Sum(Nonzero(lines), f) == Sum(lines, f)
  {
    if lines != [] {
      var rest, last := lines[..|lines| - 1], lines[|lines| - 1];
      NonzeroSums(rest, f);
      assert Nonzero(rest) + [] == Nonzero(rest);
      SumSnoc(Nonzero(rest), last, f);
    }
  }

  function Nothing(): Line -> int {
    (l: Line) => 0
  }

  /** The income postings add to income what the document is for, and to nothing else. */
  lemma IncomeAdds(accounts: seq<Account>, d: Doc, which: AccountType)
    requires TotalsAgree(d) && PostsAsMeant(accounts, d)
    ensures Sum(IncomePostings(IncomeOrder(d.lines), d.lines, d.kind), Adds(accounts, which))
         == if which == Income then Signed(d.kind, d.subtotal) else 0
  {
    var order := IncomeOrder(d.lines);
    var postings := IncomePostings(order, d.lines, d.kind);
    IncomePostingsAreSided(order, d.lines, d.kind);
    forall i | 0 <= i < |postings|
      ensures IsKind(accounts, postings[i].account, Income)
    {
      IncomeOrderIsExact(d.lines, order[i]);
    }
    if which == Income {
      IncomeOrderIsExact(d.lines, 0);
      IncomePostingsMove(order, d.lines, d.kind, 0);
      GroupingKeepsTheTotal(d.lines);
      SumNone(postings, Nothing());
      SumCombine(postings, Adds(accounts, Income), Nothing(), AnyNet(), -1);
    } else {
      SumNone(postings, Adds(accounts, which));
    }
  }

  lemma PostingAdds(accounts: seq<Account>, account: Id, kind: AccountType, amount: Money, which: AccountType)
    requires IsKind(accounts, account, kind) && (kind == Asset || kind == Liability)
    ensures Adds(accounts, which)(Posting(account, amount, kind == Asset)) == if which == kind then amount else 0
  {
  }

  lemma DocumentAdds(accounts: seq<Account>, d: Doc, which: AccountType)
    requires TotalsAgree(d) && PostsAsMeant(accounts, d)
    ensures Sum(LinesOfDoc(accounts, d), Adds(accounts, which)) == Signed(d.kind,
      match which
      case Asset => d.total
      case Liability => d.vat
      case Income => d.subtotal
      case _ => 0)
  {
    var ar, vatOut := ArAccount(accounts), VatOutAccount(accounts);
    NonzeroSums(Postings(d, ar, vatOut), Adds(accounts, which));
    PostingsSplit(d, ar, vatOut, Adds(accounts, which));
    IncomeAdds(accounts, d, which);
    PostingAdds(accounts, ar, Asset, Signed(d.kind, d.total), which);
    if d.vat != 0 {
      PostingAdds(accounts, vatOut, Liability, Signed(d.kind, d.vat), which);
    }
  }

  lemma DocumentMovesStatements(s: State, t: State, d: Doc, e: Entry, w: Window)
    requires GoodJournal(s.accounts, s.entries) && GoodEntry(s.accounts, e) && t.entries == s.entries + [e] && t.accounts == s.accounts
    requires TotalsAgree(d) && PostsAsMeant(s.accounts, d) && e.date == d.issueDate && e.lines == LinesOfDoc(s.accounts, d)
    ensures w.Holds(d.issueDate) ==> Moves(s, t, w, Signed(d.kind, d.total), Signed(d.kind, d.vat), 0, Signed(d.kind, d.subtotal))
    ensures !w.Holds(d.issueDate) ==> Moves(s, t, w, 0, 0, 0, 0)
  {
    EntryMoves(s, t, e, w);
    DocumentAdds(s.accounts, d, Asset);
    DocumentAdds(s.accounts, d, Liability);
    DocumentAdds(s.accounts, d, Equity);
    DocumentAdds(s.accounts, d, Income);
    DocumentAdds(s.accounts, d, Expense);
  }

  /**
  Issuing an invoice dated in the window raises assets by its total, what is owed by its tax and
  the profit by its subtotal; a credit note lowers them by as much. Other windows do not move.
  */
  lemma IssuingMovesStatements(s: State, id: Id, t: State, w: Window)
    requires Sound(s) && Issue(s, id).Done? && Issue(s, id).state == t
    requires Row(s.docs, id).Some? && PostsAsMeant(s.accounts, Row(s.docs, id).value)
    ensures var d := Row(s.docs, id).value;
            && (w.Holds(d.issueDate) && d.kind == Invoice ==> Moves(s, t, w, d.total, d.vat, 0, d.subtotal))
            && (w.Holds(d.issueDate) && d.kind == CreditNote ==> Moves(s, t, w, -d.total, -d.vat, 0, -d.subtotal))
            && (!w.Holds(d.issueDate) ==> Moves(s, t, w, 0, 0, 0, 0))
  {
    var e := IssuedEntry(s, id, t);
    assert DocSound(s.accounts, s.entries, s.docs[id - 1].value);
    DocumentMovesStatements(s, t, Row(s.docs, id).value, e, w);
  }

  lemma IssuedEntry(s: State, id: Id, t: State) returns (e: Entry)
    requires Issue(s, id).Done? && Issue(s, id).state == t
    ensures Row(s.docs, id).Some?
    ensures t.entries == s.entries + [e] && t.accounts == s.accounts && GoodEntry(s.accounts, e)
    ensures e.date == Row(s.docs, id).value.issueDate && e.lines == LinesOfDoc(s.accounts, Row(s.docs, id).value)
  {
    IssueGrows(s, id);
    e := t.entries[|s.entries|];
  }
}
