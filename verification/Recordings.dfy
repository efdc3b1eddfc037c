/**
Owner funding and expenses: exactly which are taken, and what each one taken does to every
account, to the statements and to the VAT return.
*/
module Recordings {
  import opened Options
  import opened Sums
  import opened Text
  import opened Amounts
  import opened Ledger
  import opened Documents
  import opened Books
  import opened Journal
  import opened Statements
  import opened Soundness
  import opened Reconciliation
  import opened ControlAccounts
  import opened Settlement
  import opened Figures

  // ---- owner funding ----

  function OwnerKey(kind: FundingKind): SystemKey {
    if kind == Capital then CapitalKey else OwnerLoanKey
  }

  /** The account of the owner: the one named, or the default for this kind of funding. */
  function OwnerOf(accounts: seq<Account>, kind: FundingKind, named: Id): Id {
    if named == 0 then FindKey(accounts, OwnerKey(kind)).GetOr(0) else named
  }

  /** Exactly which funding is taken. */
  lemma WhenFundingIsTaken(s: State, input: FundingInput)
    ensures RecordFunding(s, input).Done? <==>
      && input.amount > 0
      && !Locked(s.periods, input.receivedOn.GetOr(s.today))
      && IsKind(s.accounts, MoneyAccount(s.accounts, input.cash), Asset)
      && (input.owner == 0 ==> FindKey(s.accounts, OwnerKey(input.kind)).Some?)
      && (input.owner != 0 ==>
            && IsKind(s.accounts, input.owner, if input.kind == Capital then Equity else Liability)
            && !s.accounts[input.owner - 1].archived)
      && (input.kind == Repayment ==> input.amount <= LoanBalance(s, input.receivedOn.GetOr(s.today)))
  {
  }

  lemma FundingRow(s: State, input: FundingInput, t: State, id: Id)
    requires RecordFunding(s, input) == Done(t, id)
    ensures id == |s.fundings| + 1
    ensures var f := Funding(input.receivedOn.GetOr(s.today), input.kind, input.amount, MoneyAccount(s.accounts, input.cash),
                             OwnerOf(s.accounts, input.kind, input.owner), |s.entries| + 1);
            && t.entries == s.entries + [Entry(f.receivedOn, FromFunding, id, 0, FundingLines(f))]
            && t == s.(entries := t.entries, fundings := s.fundings + [Some(f)])
            && RowsAccepted(s.accounts, FundingLines(f))
  {
  }

  /**
  Capital and loans move their amount from the owner's account into the cash account on the day
  they were received, repayments out of it; no other account moves, and the row remembers it all.
  */
  lemma FundingMovesMoney(s: State, input: FundingInput, t: State, id: Id, a: Id)
    requires RecordFunding(s, input) == Done(t, id)
    ensures NewEntry(s, t).Some?
    ensures var e, cash, owner := NewEntry(s, t).value, MoneyAccount(s.accounts, input.cash), OwnerOf(s.accounts, input.kind, input.owner);
            && t.entries == s.entries + [e] && e.date == input.receivedOn.GetOr(s.today)
            && t.fundings == s.fundings + [Some(Funding(e.date, input.kind, input.amount, cash, owner, |t.entries|))]
            && (input.kind == Capital || input.kind == Loan ==>
                  NetOn(e.lines, a) == (if a == cash then input.amount else 0) - if a == owner then input.amount else 0)
            && (input.kind == Repayment ==>
                  NetOn(e.lines, a) == (if a == owner then input.amount else 0) - if a == cash then input.amount else 0)
  {
    FundingRow(s, input, t, id);
    var cash, owner := MoneyAccount(s.accounts, input.cash), OwnerOf(s.accounts, input.kind, input.owner);
    TwoLinesBalance(cash, owner, input.amount);
    TwoLinesBalance(owner, cash, input.amount);
  }

  lemma TwoLinesAdd(accounts: seq<Account>, x: Id, y: Id, amount: Money, which: AccountType)
    ensures Sum([Line(x, amount, 0), Line(y, 0, amount)], Adds(accounts, which))
         == Adds(accounts, which)(Line(x, amount, 0)) + Adds(accounts, which)(Line(y, 0, amount))
  {
    assert [Line(x, amount, 0), Line(y, 0, amount)] == [] + [Line(x, amount, 0)] + [Line(y, 0, amount)];
    SumSnoc([], Line(x, amount, 0), Adds(accounts, which));
    SumSnoc([Line(x, amount, 0)], Line(y, 0, amount), Adds(accounts, which));
  }

  /** An entry of two lines in the window moves the types of its two accounts, each in its own direction. */
  lemma TwoLinesMove(s: State, t: State, e: Entry, x: Id, y: Id, amount: Money, w: Window)
    requires GoodJournal(s.accounts, s.entries) && t.entries == s.entries + [e] && t.accounts == s.accounts && w.Holds(e.date)
    requires e.lines == [Line(x, amount, 0), Line(y, 0, amount)] && RowsAccepted(s.accounts, e.lines)
    ensures IsKind(s.accounts, x, Asset) && IsKind(s.accounts, y, Equity) ==> Moves(s, t, w, amount, 0, amount, 0)
    ensures IsKind(s.accounts, x, Asset) && IsKind(s.accounts, y, Liability) ==> Moves(s, t, w, amount, amount, 0, 0)
    ensures IsKind(s.accounts, x, Liability) && IsKind(s.accounts, y, Asset) ==> Moves(s, t, w, -amount, -amount, 0, 0)
    ensures IsKind(s.accounts, x, Asset) && IsKind(s.accounts, y, Asset) ==> Moves(s, t, w, 0, 0, 0, 0)
  {
    TwoLinesBalance(x, y, amount);
    EntryMoves(s, t, e, w);
    TwoLinesAdd(s.accounts, x, y, amount, Asset);
    TwoLinesAdd(s.accounts, x, y, amount, Liability);
    TwoLinesAdd(s.accounts, x, y, amount, Equity);
    TwoLinesAdd(s.accounts, x, y, amount, Income);
    TwoLinesAdd(s.accounts, x, y, amount, Expense);
  }

  /**
  On the statements of a window that holds its date, capital raises assets and equity, a loan
  raises assets and what is owed, a repayment lowers both; none of them is a profit or a loss.
  */
  lemma FundingMovesStatements(s: State, input: FundingInput, t: State, id: Id, w: Window)
    requires GoodJournal(s.accounts, s.entries) && RecordFunding(s, input) == Done(t, id)
    requires IsKind(s.accounts, OwnerOf(s.accounts, input.kind, input.owner), if input.kind == Capital then Equity else Liability)
    requires w.Holds(input.receivedOn.GetOr(s.today))
    ensures input.kind == Capital ==> Moves(s, t, w, input.amount, 0, input.amount, 0)
    ensures input.kind == Loan ==> Moves(s, t, w, input.amount, input.amount, 0, 0)
    ensures input.kind == Repayment ==> Moves(s, t, w, -input.amount, -input.amount, 0, 0)
  {
    FundingRow(s, input, t, id);
    WhenFundingIsTaken(s, input);
    var cash, owner := MoneyAccount(s.accounts, input.cash), OwnerOf(s.accounts, input.kind, input.owner);
    if input.kind == Repayment {
      TwoLinesMove(s, t, t.entries[|s.entries|], owner, cash, input.amount, w);
    } else {
      TwoLinesMove(s, t, t.entries[|s.entries|], cash, owner, input.amount, w);
    }
  }

  // ---- expenses ----

  /** The percentage an expense is taxed at: that of the rate it names, its own when it names none. */
  function ChargedAt(rates: seq<VatRate>, input: ExpenseInput): int {
    if HasRate(rates, input.rate) then rates[input.rate - 1].bp else input.rateBP
  }

  function TaxOn(rates: seq<VatRate>, input: ExpenseInput): Money {
    VAT(input.net, ChargedAt(rates, input))
  }

  /** Exactly which expenses are taken. */
  lemma WhenExpenseIsTaken(s: State, input: ExpenseInput)
    ensures RecordExpense(s, input).Done? <==>
      && !Locked(s.periods, input.spentOn.GetOr(s.today))
      && (TrimSpace(input.vendor) != "" || TrimSpace(input.description) != "")
      && input.net > 0
      && (IsKind(s.accounts, input.account, Expense) || IsKind(s.accounts, input.account, Asset))
      && (IsKind(s.accounts, MoneyAccount(s.accounts, input.paidFrom), Asset) || IsKind(s.accounts, MoneyAccount(s.accounts, input.paidFrom), Liability))
      && (input.rate == 0 || HasRate(s.rates, input.rate))
      && TaxOn(s.rates, input) >= 0
      && (input.billable ==> input.client != 0)
      && (TaxOn(s.rates, input) != 0 && input.reclaimable ==> FindKey(s.accounts, VatInputKey).Some?)
  {
  }

  lemma ExpenseRowOf(s: State, input: ExpenseInput, t: State, id: Id)
    requires RecordExpense(s, input) == Done(t, id)
    ensures id == |s.expenses| + 1 && TaxOn(s.rates, input) >= 0 && input.net > 0
    ensures var tax := TaxOn(s.rates, input);
            var x := ExpenseRow(input.spentOn.GetOr(s.today), input.account, MoneyAccount(s.accounts, input.paidFrom), input.net,
                                input.rate, ChargedAt(s.rates, input), tax, input.net + tax, input.reclaimable, input.billable,
                                input.client, input.rebilled, |s.entries| + 1);
            && t.entries == s.entries + [Entry(x.spentOn, FromExpense, id, 0, ExpenseLines(x, VatInAccount(s.accounts)))]
            && t == s.(entries := t.entries, expenses := s.expenses + [Some(x)])
            && (tax != 0 && input.reclaimable ==> FindKey(s.accounts, VatInputKey).Some?)
  {
  }

  /** What is booked as the cost: the net, and the tax too when it cannot be reclaimed. */
  function CostOf(rates: seq<VatRate>, input: ExpenseInput): Money {
    if input.reclaimable then input.net else input.net + TaxOn(rates, input)
  }

  function ReclaimedOn(rates: seq<VatRate>, input: ExpenseInput): Money {
    if input.reclaimable then TaxOn(rates, input) else 0
  }

  lemma ExpenseLinesSum(x: ExpenseRow, vatIn: Id, f: Line -> int)
    requires x.total == x.net + x.vat
    requires f(Line(vatIn, 0, 0)) == 0
    ensures Sum(ExpenseLines(x, vatIn), f)
         == f(Line(x.account, if x.reclaimable then x.net else x.total, 0))
            + (if x.reclaimable then f(Line(vatIn, x.vat, 0)) else 0) + f(Line(x.paidFrom, 0, x.total))
  {
    if x.vat != 0 && x.reclaimable {
      var a, b, c := Line(x.account, x.net, 0), Line(vatIn, x.vat, 0), Line(x.paidFrom, 0, x.total);
      assert ExpenseLines(x, vatIn) == [a, b, c];
      ThreeLines(a, b, c, f);
    } else {
      var a, b := Line(x.account, x.total, 0), Line(x.paidFrom, 0, x.total);
      assert ExpenseLines(x, vatIn) == [] + [a] + [b];
      SumSnoc([], a, f);
      SumSnoc([a], b, f);
    }
  }

  /**
  An expense taken is taxed at its rate, and moves what it came to from the account it was paid
  from: the cost to its own account and what can be reclaimed to the input tax account, on the
  day it was spent.
  */
  lemma ExpenseMovesMoney(s: State, input: ExpenseInput, t: State, id: Id, a: Id)
    requires RecordExpense(s, input) == Done(t, id)
    ensures NewEntry(s, t).Some?
    ensures var e, cost, back, tax := NewEntry(s, t).value, CostOf(s.rates, input), ReclaimedOn(s.rates, input), TaxOn(s.rates, input);
            && t.entries == s.entries + [e] && e.date == input.spentOn.GetOr(s.today) && e.sourceId == id == |t.expenses|
            && NetOn(e.lines, a)
               == (if a == input.account then cost else 0)
                  + (if Some(a) == FindKey(s.accounts, VatInputKey) then back else 0)
                  - if a == MoneyAccount(s.accounts, input.paidFrom) then input.net + tax else 0
  {
    ExpenseRowOf(s, input, t, id);
    ExpenseLinesSum(t.expenses[|s.expenses|].value, VatInAccount(s.accounts), NetTo(a));
  }

  /** What the lines of an expense add to one type of account. */
  lemma ExpenseAdds(accounts: seq<Account>, x: ExpenseRow, vatIn: Id, which: AccountType)
    requires x.total == x.net + x.vat
    requires IsKind(accounts, x.account, Expense) || IsKind(accounts, x.account, Asset)
    requires IsKind(accounts, x.paidFrom, Asset) || IsKind(accounts, x.paidFrom, Liability)
    requires x.reclaimable && x.vat != 0 ==> IsKind(accounts, vatIn, Asset) || IsKind(accounts, vatIn, Liability)
    ensures var cost, back := if x.reclaimable then x.net else x.total, if x.reclaimable then x.vat else 0;
            Sum(ExpenseLines(x, vatIn), Adds(accounts, which)) ==
              match which
              case Asset =>
                (if IsKind(accounts, x.account, Asset) then cost else 0) + (if IsKind(accounts, vatIn, Asset) then back else 0)
                - if IsKind(accounts, x.paidFrom, Asset) then x.total else 0
              case Liability =>
                (if IsKind(accounts, x.paidFrom, Liability) then x.total else 0) - if IsKind(accounts, vatIn, Liability) then back else 0
              case Expense => if IsKind(accounts, x.account, Expense) then cost else 0
              case _ => 0
  {
    ExpenseLinesSum(x, vatIn, Adds(accounts, which));
  }

  /**
  On the statements of a window that holds its date, an expense lowers the profit by what it cost,
  or, booked to an asset, raises assets by it; what can be reclaimed is an asset, or that much less
  is owed; what was paid comes out of assets or is owed.
  */
  lemma ExpenseMovesStatements(s: State, input: ExpenseInput, t: State, id: Id, w: Window)
    requires GoodJournal(s.accounts, s.entries) && RecordExpense(s, input) == Done(t, id) && w.Holds(input.spentOn.GetOr(s.today))
    requires ReclaimedOn(s.rates, input) != 0 ==>
      IsKind(s.accounts, VatInAccount(s.accounts), Asset) || IsKind(s.accounts, VatInAccount(s.accounts), Liability)
    ensures var cost, back, paid := CostOf(s.rates, input), ReclaimedOn(s.rates, input), input.net + TaxOn(s.rates, input);
            var source, vatIn := MoneyAccount(s.accounts, input.paidFrom), VatInAccount(s.accounts);
            Moves(s, t, w,
                  (if IsKind(s.accounts, input.account, Asset) then cost else 0) + (if IsKind(s.accounts, vatIn, Asset) then back else 0)
                    - (if IsKind(s.accounts, source, Asset) then paid else 0),
                  (if IsKind(s.accounts, source, Liability) then paid else 0) - (if IsKind(s.accounts, vatIn, Liability) then back else 0),
                  0,
                  if IsKind(s.accounts, input.account, Expense) then -cost else 0)
  {
    ExpenseRowOf(s, input, t, id);
    WhenExpenseIsTaken(s, input);
    ExpenseGrows(s, input);
    EntryMoves(s, t, t.entries[|s.entries|], w);
    var x, vatIn := t.expenses[|s.expenses|].value, VatInAccount(s.accounts);
    ExpenseAdds(s.accounts, x, vatIn, Asset);
    ExpenseAdds(s.accounts, x, vatIn, Liability);
    ExpenseAdds(s.accounts, x, vatIn, Equity);
    ExpenseAdds(s.accounts, x, vatIn, Income);
    ExpenseAdds(s.accounts, x, vatIn, Expense);
  }

  // ---- the VAT return ----

  /** An expense in the window adds its net to the purchases, and its tax to the input tax when it can be reclaimed. */
  lemma ExpenseMovesReturn(s: State, input: ExpenseInput, t: State, id: Id, w: Window)
    requires RecordExpense(s, input) == Done(t, id)
    ensures var inside := w.Holds(input.spentOn.GetOr(s.today));
            && ReturnPurchases(t, w) == ReturnPurchases(s, w) + (if inside then input.net else 0)
            && ReturnIn(t, w) == ReturnIn(s, w) + (if inside then ReclaimedOn(s.rates, input) else 0)
            && ReturnOut(t, w) == ReturnOut(s, w)
            && forall box :: ReturnSales(t, w, box) == ReturnSales(s, w, box)
  {
    ExpenseRowOf(s, input, t, id);
    SumSnoc(s.expenses, t.expenses[|s.expenses|], SpentNet(w));
    SumSnoc(s.expenses, t.expenses[|s.expenses|], Reclaimed(w));
  }

  /** Deleting it takes the same out again. */
  lemma DeletionMovesReturn(s: State, id: Id, t: State, w: Window)
    requires DeleteExpense(s, id) == Done(t, id)
    ensures Row(s.expenses, id).Some?
    ensures var x := Row(s.expenses, id).value;
            && ReturnPurchases(t, w) == ReturnPurchases(s, w) - (if w.Holds(x.spentOn) then x.net else 0)
            && ReturnIn(t, w) == ReturnIn(s, w) - (if w.Holds(x.spentOn) && x.reclaimable then x.vat else 0)
            && ReturnOut(t, w) == ReturnOut(s, w)
            && forall box :: ReturnSales(t, w, box) == ReturnSales(s, w, box)
  {
    ExpenseDeletionDrops(s, id);
    SumSet(s.expenses, id - 1, None, SpentNet(w));
    SumSet(s.expenses, id - 1, None, Reclaimed(w));
  }

  /** The box a sale is returned in: zero-rated, exempt and reverse-charged sales apart, all others together. */
  function SoldIn(rates: seq<VatRate>, box: VatKind): DocLine -> int {
    (l: DocLine) =>
      match box
      case Zero => if HasRate(rates, l.rate) && rates[l.rate - 1].kind == Zero then l.net else 0
      case Exempt => if HasRate(rates, l.rate) && rates[l.rate - 1].kind == Exempt then l.net else 0
      case ReverseCharge => if HasRate(rates, l.rate) && rates[l.rate - 1].kind == ReverseCharge then l.net else 0
      case Standard => if !HasRate(rates, l.rate) || rates[l.rate - 1].kind == Standard || rates[l.rate - 1].kind == Reduced then l.net else 0
      case Reduced => 0
  }

  lemma BoxOfALine(lines: seq<DocLine>, rates: seq<VatRate>, box: VatKind)
    ensures Sum(lines, NetIn(rates, box)) == Sum(lines, SoldIn(rates, box))
  {
    SumSame(lines, NetIn(rates, box), SoldIn(rates, box));
  }

  lemma IssuedRow(s: State, id: Id, t: State) returns (issued: Doc)
    requires Issue(s, id).Done? && Issue(s, id).state == t
    ensures Row(s.docs, id).Some? && !Row(s.docs, id).value.Live() && issued.Live()
    ensures var d := Row(s.docs, id).value; issued == d.(number := issued.number, status := Issued, entry := |s.entries| + 1)
    ensures t.docs == s.docs[id - 1 := Some(issued)] && t.rates == s.rates && t.expenses == s.expenses
  {
    issued := t.docs[id - 1].value;
  }

  lemma DocumentMovesReturn(s: State, t: State, id: Id, issued: Doc, w: Window, box: VatKind)
    requires Row(s.docs, id).Some? && !Row(s.docs, id).value.Live() && issued.Live() && TotalsAgree(issued)
    requires t.docs == s.docs[id - 1 := Some(issued)] && t.rates == s.rates
    ensures var sign := if !w.Holds(issued.issueDate) then 0 else if issued.kind == Invoice then 1 else -1;
            && ReturnOut(t, w) == ReturnOut(s, w) + sign * issued.vat
            && ReturnSales(t, w, box) == ReturnSales(s, w, box) + sign * Sum(issued.lines, SoldIn(s.rates, box))
  {
    BoxOfALine(issued.lines, s.rates, box);
    SumSet(s.docs, id - 1, Some(issued), LineTax(w));
    SumSet(s.docs, id - 1, Some(issued), SalesIn(w, s.rates, box));
  }

  /**
  An invoice issued in the window adds its tax to the output tax and each line's net to the box of
  its treatment; a credit note takes them out. Purchases and input tax stand.
  */
  lemma IssuingMovesReturn(s: State, id: Id, t: State, w: Window, box: VatKind)
    requires Sound(s) && Issue(s, id).Done? && Issue(s, id).state == t
    ensures Row(s.docs, id).Some?
    ensures var d := Row(s.docs, id).value;
            var sign := if !w.Holds(d.issueDate) then 0 else if d.kind == Invoice then 1 else -1;
            && ReturnOut(t, w) == ReturnOut(s, w) + sign * d.vat
            && ReturnSales(t, w, box) == ReturnSales(s, w, box) + sign * Sum(d.lines, SoldIn(s.rates, box))
            && ReturnPurchases(t, w) == ReturnPurchases(s, w) && ReturnIn(t, w) == ReturnIn(s, w)
  {
    var issued := IssuedRow(s, id, t);
    assert DocSound(s.accounts, s.entries, s.docs[id - 1].value);
    DocumentMovesReturn(s, t, id, issued, w, box);
  }
}
