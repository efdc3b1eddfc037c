/**
When something recorded can be taken back. A void or a deletion posts the mirror of the row's
entry through the checks on manual postings, which ask more than recording did.
*/
module Removals {
  import opened Options
  import opened Sums
  import opened Amounts
  import opened Ledger
  import opened Documents
  import opened Books
  import opened Journal
  import opened Soundness

  predicate NoneArchived(accounts: seq<Account>, lines: seq<Line>) {
    forall j :: 0 <= j < |lines| && HasAccount(accounts, lines[j].account) ==> !accounts[lines[j].account - 1].archived
  }

  /** A balanced entry with anything in it has two sides, neither of them zero. */
  lemma TwoSides(accounts: seq<Account>, lines: seq<Line>)
    requires RowsAccepted(accounts, lines) && Balanced(lines) && lines != []
    ensures |lines| >= 2 && Sum(lines, AnyDebit()) > 0
  {
    SumAtLeast(lines, 0, AnyDebit());
    SumAtLeast(lines, 0, AnyCredit());
  }

  lemma MirrorRows(accounts: seq<Account>, lines: seq<Line>)
    requires RowsAccepted(accounts, lines)
    ensures |Mirror(lines)| == |lines| && RowsAccepted(accounts, Mirror(lines))
    ensures NoneArchived(accounts, Mirror(lines)) <==> NoneArchived(accounts, lines)
  {
    assert forall i :: 0 <= i < |lines| ==> Mirror(lines)[i] == Swap(lines[i]);
    if !NoneArchived(accounts, lines) {
      var j :| 0 <= j < |lines| && HasAccount(accounts, lines[j].account) && accounts[lines[j].account - 1].archived;
      assert Mirror(lines)[j].account == lines[j].account;
    }
  }

  /** Rows the tables would take are postable when they balance, there is something in them, and no account is archived. */
  lemma PostableWhen(accounts: seq<Account>, lines: seq<Line>)
    requires RowsAccepted(accounts, lines) && Balanced(lines)
    ensures Postable(accounts, lines) <==> lines != [] && NoneArchived(accounts, lines)
  {
    if lines != [] {
      TwoSides(accounts, lines);
    }
  }

  /**
  Exactly which postings are taken: to an open date, of lines that each fill one side and name an
  account in use, with equal sides. That the sides are not empty follows.
  */
  lemma WhenPostIsTaken(s: State, date: Option<Date>, source: Source, sourceId: Id, reverses: Id, lines: seq<Line>)
    ensures Post(s, date, source, sourceId, reverses, lines).Done? <==>
      && !Locked(s.periods, date.GetOr(s.today))
      && lines != []
      && (forall i :: 0 <= i < |lines| ==>
            && ((lines[i].debit > 0 && lines[i].credit == 0) || (lines[i].debit == 0 && lines[i].credit > 0))
            && HasAccount(s.accounts, lines[i].account) && !s.accounts[lines[i].account - 1].archived)
      && Sum(lines, AnyDebit()) == Sum(lines, AnyCredit())
    ensures Post(s, date, source, sourceId, reverses, lines).Done? ==>
      var t := Post(s, date, source, sourceId, reverses, lines).state;
      t == s.(entries := s.entries + [Entry(if date.Some? then date.value else s.today, source, sourceId, reverses, lines)])
  {
    if RowsAccepted(s.accounts, lines) && Balanced(lines) {
      PostableWhen(s.accounts, lines);
    }
  }

  lemma MirrorPostable(accounts: seq<Account>, lines: seq<Line>)
    requires RowsAccepted(accounts, lines) && Balanced(lines)
    ensures Postable(accounts, Mirror(lines)) <==> lines != [] && NoneArchived(accounts, lines)
  {
    MirrorCancels(lines, 0);
    MirrorRows(accounts, lines);
    PostableWhen(accounts, Mirror(lines));
  }

  /** Exactly which entries of a sound journal can be reversed. */
  lemma WhenReverseSucceeds(s: State, id: Id, date: Option<Date>)
    requires GoodJournal(s.accounts, s.entries)
    ensures Reverse(s, id, date).Done? <==>
      && 1 <= id <= |s.entries|
      && !Locked(s.periods, date.GetOr(s.today))
      && s.entries[id - 1].lines != [] && NoneArchived(s.accounts, s.entries[id - 1].lines)
  {
    if 1 <= id <= |s.entries| {
      assert GoodEntry(s.accounts, s.entries[id - 1]);
      MirrorPostable(s.accounts, s.entries[id - 1].lines);
    }
  }

  /** A row that stands for an entry is reversed today if and only if today is open and the entry can be posted again. */
  lemma WhenRowReverses(s: State, entry: Id, date: Date, lines: seq<Line>)
    requires GoodJournal(s.accounts, s.entries) && PostedAs(s.entries, entry, date, lines)
    ensures Reverse(s, entry, Some(s.today)).Done? <==> !Locked(s.periods, s.today) && lines != [] && NoneArchived(s.accounts, lines)
    ensures Reverse(s, entry, None).Done? <==> !Locked(s.periods, s.today) && lines != [] && NoneArchived(s.accounts, lines)
  {
    WhenReverseSucceeds(s, entry, Some(s.today));
    WhenReverseSucceeds(s, entry, None);
  }

  /**
  Exactly which documents can be voided: live and unpaid ones, today being open, that posted
  something, and only to accounts that are not archived.
  */
  lemma WhenVoidSucceeds(s: State, id: Id)
    requires Recorded(s)
    ensures VoidDoc(s, id).Done? <==>
      && Row(s.docs, id).Some? && Row(s.docs, id).value.Live() && Row(s.docs, id).value.paid == 0
      && !Locked(s.periods, s.today)
      && LinesOfDoc(s.accounts, Row(s.docs, id).value) != []
      && NoneArchived(s.accounts, LinesOfDoc(s.accounts, Row(s.docs, id).value))
  {
    if Row(s.docs, id).Some? && Row(s.docs, id).value.Live() {
      var d := Row(s.docs, id).value;
      assert DocSound(s.accounts, s.entries, s.docs[id - 1].value);
      WhenRowReverses(s, d.entry, d.issueDate, LinesOfDoc(s.accounts, d));
    }
  }

  lemma WhenPaymentDeletionSucceeds(s: State, id: Id)
    requires Recorded(s)
    ensures DeletePayment(s, id).Done? <==>
      && Row(s.payments, id).Some?
      && !Locked(s.periods, Row(s.payments, id).value.paidOn) && !Locked(s.periods, s.today)
      && NoneArchived(s.accounts, PaymentLines(Row(s.payments, id).value, ArAccount(s.accounts)))
  {
    if Row(s.payments, id).Some? {
      var p := Row(s.payments, id).value;
      assert PaymentSound(s.accounts, s.entries, s.payments[id - 1].value);
      WhenRowReverses(s, p.entry, p.paidOn, PaymentLines(p, ArAccount(s.accounts)));
    }
  }

  lemma WhenExpenseDeletionSucceeds(s: State, id: Id)
    requires Recorded(s)
    ensures DeleteExpense(s, id).Done? <==>
      && Row(s.expenses, id).Some? && Row(s.expenses, id).value.rebilled == 0
      && !Locked(s.periods, Row(s.expenses, id).value.spentOn) && !Locked(s.periods, s.today)
      && NoneArchived(s.accounts, ExpenseLines(Row(s.expenses, id).value, VatInAccount(s.accounts)))
  {
    if Row(s.expenses, id).Some? {
      var x := Row(s.expenses, id).value;
      assert ExpenseSound(s.accounts, s.entries, s.expenses[id - 1].value);
      WhenRowReverses(s, x.entry, x.spentOn, ExpenseLines(x, VatInAccount(s.accounts)));
    }
  }

  lemma WhenFundingDeletionSucceeds(s: State, id: Id)
    requires Recorded(s)
    ensures DeleteFunding(s, id).Done? <==>
      && Row(s.fundings, id).Some?
      && !Locked(s.periods, Row(s.fundings, id).value.receivedOn) && !Locked(s.periods, s.today)
      && (Row(s.fundings, id).value.kind == Loan ==> Row(s.fundings, id).value.amount <= LoanBalance(s, s.today))
      && NoneArchived(s.accounts, FundingLines(Row(s.fundings, id).value))
  {
    if Row(s.fundings, id).Some? {
      var f := Row(s.fundings, id).value;
      assert FundingSound(s.entries, s.fundings[id - 1].value);
      WhenRowReverses(s, f.entry, f.receivedOn, FundingLines(f));
    }
  }

  // ---- who archives a system account ----

  lemma OthersArchiveNothing(s: State, step: Step, id: Id)
    requires !ChangesChart(step) && HasAccount(s.accounts, id)
    ensures HasAccount(After(s, step).accounts, id) && After(s, step).accounts[id - 1] == s.accounts[id - 1]
  {
    OthersLeaveChart(s, step);
  }

  /** Archiving refuses a system account; editing it with the flag set does not, and nothing else archives one. */
  lemma WhoArchivesASystemAccount(s: State, step: Step, id: Id)
    requires HasAccount(s.accounts, id) && s.accounts[id - 1].key != NoKey && !s.accounts[id - 1].archived
    ensures HasAccount(After(s, step).accounts, id)
    ensures After(s, step).accounts[id - 1].archived
       <==> step.DoUpdateAccount? && step.id == id && step.account.archived && Perform(s, step).Done?
  {
    if !ChangesChart(step) {
      OthersArchiveNothing(s, step, id);
    }
  }

  // ---- a quantity of zero ----

  /** A line of quantity zero is priced as one unit, whatever else is on it. */
  lemma ZeroIsBilledAsOne(p: Pricing, l: DocLine)
    requires l.quantity == 0
    ensures PriceLine(p, l) == PriceLine(p, l.(quantity := 1000))
    ensures PriceLine(p, l).Some? ==> PriceLine(p, l).value.quantity == 1000 && PriceLine(p, l).value.net == l.unitPrice
  {
    RoundsToNearest(1000 * l.unitPrice, 500, l.unitPrice);
  }

  /** So a time entry of no hours bills one hour at its rate. */
  lemma NoHoursBillOneHour(p: Pricing, e: TimeEntry, t: Id, rate: Id, income: Id)
    requires e.hours == 0 && PriceLine(p, TimeLine(e, t, rate, income)).Some?
    ensures PriceLine(p, TimeLine(e, t, rate, income)).value.net == e.rate
  {
    ZeroIsBilledAsOne(p, TimeLine(e, t, rate, income));
  }
}
