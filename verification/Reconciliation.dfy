/**
The journal against its sources. On any account and over any window, what the journal holds is
what the live documents, payments, expenses and funding rows post there, plus what was posted by
hand, plus the shift a void or a deletion makes when its reversal is dated elsewhere.
*/
module Reconciliation {
  import opened Options
  import opened Sums
  import opened Amounts
  import opened Ledger
  import opened Documents
  import opened Books
  import opened Journal
  import opened Soundness

  /** What lines of this date move on an account, seen through a window. */
  function Seen(w: Window, date: Date, lines: seq<Line>, a: Id): Money {
    if w.Holds(date) then NetOn(lines, a) else 0
  }

  function FromDoc(w: Window, a: Id, ar: Id, vatOut: Id): Option<Doc> -> int {
    (row: Option<Doc>) =>
      if row.Some? && row.value.Live() then Seen(w, row.value.issueDate, DocEntryLines(row.value, ar, vatOut), a) else 0
  }

  function FromPaid(w: Window, a: Id, ar: Id): Option<Payment> -> int {
    (row: Option<Payment>) => if row.Some? then Seen(w, row.value.paidOn, PaymentLines(row.value, ar), a) else 0
  }

  function FromSpent(w: Window, a: Id, vatIn: Id): Option<ExpenseRow> -> int {
    (row: Option<ExpenseRow>) => if row.Some? then Seen(w, row.value.spentOn, ExpenseLines(row.value, vatIn), a) else 0
  }

  function FromFunded(w: Window, a: Id): Option<Funding> -> int {
    (row: Option<Funding>) => if row.Some? then Seen(w, row.value.receivedOn, FundingLines(row.value), a) else 0
  }

  function DocSources(s: State, w: Window, a: Id): Money {
    Sum(s.docs, FromDoc(w, a, ArAccount(s.accounts), VatOutAccount(s.accounts)))
  }

  function PaymentSources(s: State, w: Window, a: Id): Money {
    Sum(s.payments, FromPaid(w, a, ArAccount(s.accounts)))
  }

  function ExpenseSources(s: State, w: Window, a: Id): Money {
    Sum(s.expenses, FromSpent(w, a, VatInAccount(s.accounts)))
  }

  function FundingSources(s: State, w: Window, a: Id): Money {
    Sum(s.fundings, FromFunded(w, a))
  }

  function Sources(s: State, w: Window, a: Id): Money {
    DocSources(s, w, a) + PaymentSources(s, w, a) + ExpenseSources(s, w, a) + FundingSources(s, w, a)
  }

  /** Movement on the account that no live source row accounts for. */
  function Gap(s: State, w: Window, a: Id): Money {
    Net(s.entries, w, a) - Sources(s, w, a)
  }

  /** How far removing a row of this date shifts a window: its own date loses it, today's gains the reversal. */
  function Shift(s: State, w: Window, date: Date, lines: seq<Line>, a: Id): Money {
    Seen(w, date, lines, a) - Seen(w, s.today, lines, a)
  }

  /** What a step adds to the gap. Only hand postings and removals add anything. */
  function Drift(s: State, step: Step, w: Window, a: Id): Money {
    if Perform(s, step).Refused? then 0
    else
      match step
      case DoPost(date, _, _, _, lines) => Seen(w, date.GetOr(s.today), lines, a)
      case DoReverse(id, date) =>
        if 1 <= id <= |s.entries| then -Seen(w, date.GetOr(s.today), s.entries[id - 1].lines, a) else 0
      case DoVoid(id) =>
        (match Row(s.docs, id)
         case None => 0
         case Some(d) => Shift(s, w, d.issueDate, LinesOfDoc(s.accounts, d), a))
      case DoDeletePayment(id) =>
        (match Row(s.payments, id)
         case None => 0
         case Some(p) => Shift(s, w, p.paidOn, PaymentLines(p, ArAccount(s.accounts)), a))
      case DoDeleteExpense(id) =>
        (match Row(s.expenses, id)
         case None => 0
         case Some(x) => Shift(s, w, x.spentOn, ExpenseLines(x, VatInAccount(s.accounts)), a))
      case DoDeleteFunding(id) =>
        (match Row(s.fundings, id)
         case None => 0
         case Some(f) => Shift(s, w, f.receivedOn, FundingLines(f), a))
      case _ => 0
  }

  // ---- one step ----

  lemma EntryMovesNet(s: State, t: State, e: Entry, w: Window, a: Id)
    requires t.entries == s.entries + [e]
    ensures Net(t.entries, w, a) == Net(s.entries, w, a) + Seen(w, e.date, e.lines, a)
  {
    TotalGrows(s.entries, e, w, NetTo(a));
  }

  /** A reversal of a recorded row's entry takes its movement back on the day it is dated. */
  lemma ReversalMovesNet(s: State, id: Id, date: Option<Date>, w: Window, a: Id)
    requires Reverse(s, id, date).Done?
    ensures 1 <= id <= |s.entries|
    ensures Net(Reverse(s, id, date).state.entries, w, a)
         == Net(s.entries, w, a) - Seen(w, date.GetOr(s.today), s.entries[id - 1].lines, a)
  {
    ReversalGrows(s, id, date);
    var lines := s.entries[id - 1].lines;
    var e := Entry(date.GetOr(s.today), s.entries[id - 1].source, s.entries[id - 1].sourceId, id, Mirror(lines));
    EntryMovesNet(s, Reverse(s, id, date).state, e, w, a);
    MirrorCancels(lines, a);
  }

  lemma RecalcMovesNothing(docs: seq<Option<Doc>>, payments: seq<Option<Payment>>, id: Id, w: Window, a: Id, ar: Id, vatOut: Id)
    ensures Sum(Recalc(docs, payments, id), FromDoc(w, a, ar, vatOut)) == Sum(docs, FromDoc(w, a, ar, vatOut))
  {
    var after := Recalc(docs, payments, id);
    if Row(docs, id).Some? {
      var f := FromDoc(w, a, ar, vatOut);
      SumSet(docs, id - 1, after[id - 1], f);
      SamePostings(after[id - 1].value, docs[id - 1].value, ar, vatOut);
    }
  }

  /** A draft posts nothing and an issued document posts its entry, so the two sides move together. */
  lemma IssuedGap(s: State, t: State, id: Id, issued: Doc, e: Entry, w: Window, a: Id)
    requires Row(s.docs, id).Some? && !Row(s.docs, id).value.Live() && issued.Live()
    requires t.entries == s.entries + [e] && t.docs == s.docs[id - 1 := Some(issued)]
    requires t.accounts == s.accounts && t.payments == s.payments && t.expenses == s.expenses && t.fundings == s.fundings
    requires e.date == issued.issueDate && e.lines == LinesOfDoc(s.accounts, issued)
    ensures Gap(t, w, a) == Gap(s, w, a)
  {
    EntryMovesNet(s, t, e, w, a);
    SumSet(s.docs, id - 1, Some(issued), FromDoc(w, a, ArAccount(s.accounts), VatOutAccount(s.accounts)));
  }

  lemma IssueWrites(s: State, id: Id) returns (issued: Doc, e: Entry)
    requires Issue(s, id).Done?
    ensures Row(s.docs, id).Some? && !Row(s.docs, id).value.Live() && issued.Live()
    ensures var t := Issue(s, id).state;
            && t.entries == s.entries + [e] && t.docs == s.docs[id - 1 := Some(issued)]
            && t.accounts == s.accounts && t.payments == s.payments && t.expenses == s.expenses && t.fundings == s.fundings
    ensures e.date == issued.issueDate && e.lines == LinesOfDoc(s.accounts, issued)
  {
    var t, d := Issue(s, id).state, Row(s.docs, id).value;
    issued, e := t.docs[id - 1].value, t.entries[|s.entries|];
    SamePostings(d, issued, ArAccount(s.accounts), VatOutAccount(s.accounts));
  }

  /** What a document posts depends on its kind, its amounts and its lines alone. */
  lemma SamePostings(d: Doc, e: Doc, ar: Id, vatOut: Id)
    requires d.kind == e.kind && d.total == e.total && d.vat == e.vat && d.lines == e.lines
    ensures DocEntryLines(d, ar, vatOut) == DocEntryLines(e, ar, vatOut)
  {
  }

  lemma VoidEffect(s: State, id: Id, w: Window, a: Id)
    requires Recorded(s) && VoidDoc(s, id).Done?
    ensures Row(s.docs, id).Some? && Row(s.docs, id).value.Live()
    ensures var t, d := VoidDoc(s, id).state, Row(s.docs, id).value;
            && t == s.(entries := t.entries, docs := s.docs[id - 1 := Some(d.(status := Void))])
            && Net(t.entries, w, a) == Net(s.entries, w, a) - Seen(w, s.today, LinesOfDoc(s.accounts, d), a)
  {
    VoidMarks(s, id);
    DocPosted(s, id);
    var d := Row(s.docs, id).value;
    VoidReverses(s, id, d);
    ReversalMovesNet(s, d.entry, Some(s.today), w, a);
  }

  lemma DocPosted(s: State, id: Id)
    requires Recorded(s) && Row(s.docs, id).Some? && Row(s.docs, id).value.status != Draft
    ensures var d := Row(s.docs, id).value; PostedAs(s.entries, d.entry, d.issueDate, LinesOfDoc(s.accounts, d))
  {
    assert DocSound(s.accounts, s.entries, s.docs[id - 1].value);
  }

  lemma VoidMarks(s: State, id: Id)
    requires VoidDoc(s, id).Done?
    ensures Row(s.docs, id).Some? && Row(s.docs, id).value.Live()
    ensures var t := VoidDoc(s, id).state;
            t == s.(entries := t.entries, docs := s.docs[id - 1 := Some(Row(s.docs, id).value.(status := Void))])
  {
  }

  lemma VoidReverses(s: State, id: Id, d: Doc)
    requires Row(s.docs, id) == Some(d) && d.entry != 0 && VoidDoc(s, id).Done?
    ensures Reverse(s, d.entry, Some(s.today)).Done?
    ensures VoidDoc(s, id).state.entries == Reverse(s, d.entry, Some(s.today)).state.entries
  {
  }

  lemma VoidMovesGap(s: State, id: Id, w: Window, a: Id)
    requires Recorded(s) && VoidDoc(s, id).Done?
    ensures var d := Row(s.docs, id).value;
            Gap(VoidDoc(s, id).state, w, a) == Gap(s, w, a) + Shift(s, w, d.issueDate, LinesOfDoc(s.accounts, d), a)
  {
    VoidEffect(s, id, w, a);
    SumSet(s.docs, id - 1, Some(Row(s.docs, id).value.(status := Void)), FromDoc(w, a, ArAccount(s.accounts), VatOutAccount(s.accounts)));
  }

  /** A receipt and its entry arrive together, and refreshing the document it settles moves nothing. */
  lemma PaidGap(s: State, t: State, p: Payment, e: Entry, w: Window, a: Id)
    requires t.entries == s.entries + [e] && t.payments == s.payments + [Some(p)] && t.docs == Recalc(s.docs, t.payments, p.invoice)
    requires t.accounts == s.accounts && t.expenses == s.expenses && t.fundings == s.fundings
    requires e.date == p.paidOn && e.lines == PaymentLines(p, ArAccount(s.accounts))
    ensures Gap(t, w, a) == Gap(s, w, a)
  {
    EntryMovesNet(s, t, e, w, a);
    SumSnoc(s.payments, Some(p), FromPaid(w, a, ArAccount(s.accounts)));
    RecalcMovesNothing(s.docs, t.payments, p.invoice, w, a, ArAccount(s.accounts), VatOutAccount(s.accounts));
  }

  lemma PaymentWrites(s: State, input: PaymentInput) returns (p: Payment, e: Entry)
    requires RecordPayment(s, input).Done?
    ensures var t := RecordPayment(s, input).state;
            && t.entries == s.entries + [e] && t.payments == s.payments + [Some(p)] && t.docs == Recalc(s.docs, t.payments, p.invoice)
            && t.accounts == s.accounts && t.expenses == s.expenses && t.fundings == s.fundings
    ensures e.date == p.paidOn && e.lines == PaymentLines(p, ArAccount(s.accounts))
  {
    var t := RecordPayment(s, input).state;
    p, e := t.payments[|s.payments|].value, t.entries[|s.entries|];
  }

  lemma PaymentDeletionEffect(s: State, id: Id, w: Window, a: Id)
    requires Recorded(s) && DeletePayment(s, id).Done?
    ensures Row(s.payments, id).Some?
    ensures var t, p := DeletePayment(s, id).state, Row(s.payments, id).value;
            && t == s.(entries := t.entries, payments := s.payments[id - 1 := None], docs := Recalc(s.docs, t.payments, p.invoice))
            && Net(t.entries, w, a) == Net(s.entries, w, a) - Seen(w, s.today, PaymentLines(p, ArAccount(s.accounts)), a)
  {
    var p := Row(s.payments, id).value;
    assert PaymentSound(s.accounts, s.entries, p);
    ReversalMovesNet(s, p.entry, None, w, a);
  }

  lemma PaymentDeletionMovesGap(s: State, id: Id, w: Window, a: Id)
    requires Recorded(s) && DeletePayment(s, id).Done?
    ensures var p := Row(s.payments, id).value;
            Gap(DeletePayment(s, id).state, w, a)
            == Gap(s, w, a) + Shift(s, w, p.paidOn, PaymentLines(p, ArAccount(s.accounts)), a)
  {
    PaymentDeletionEffect(s, id, w, a);
    var t := DeletePayment(s, id).state;
    SumSet(s.payments, id - 1, None, FromPaid(w, a, ArAccount(s.accounts)));
    RecalcMovesNothing(s.docs, t.payments, Row(s.payments, id).value.invoice, w, a, ArAccount(s.accounts), VatOutAccount(s.accounts));
  }

  lemma SpentGap(s: State, t: State, x: ExpenseRow, e: Entry, w: Window, a: Id)
    requires t.entries == s.entries + [e] && t.expenses == s.expenses + [Some(x)]
    requires t.accounts == s.accounts && t.docs == s.docs && t.payments == s.payments && t.fundings == s.fundings
    requires e.date == x.spentOn && e.lines == ExpenseLines(x, VatInAccount(s.accounts))
    ensures Gap(t, w, a) == Gap(s, w, a)
  {
    EntryMovesNet(s, t, e, w, a);
    SumSnoc(s.expenses, Some(x), FromSpent(w, a, VatInAccount(s.accounts)));
  }

  lemma ExpenseWrites(s: State, input: ExpenseInput) returns (x: ExpenseRow, e: Entry)
    requires RecordExpense(s, input).Done?
    ensures var t := RecordExpense(s, input).state;
            && t.entries == s.entries + [e] && t.expenses == s.expenses + [Some(x)]
            && t.accounts == s.accounts && t.docs == s.docs && t.payments == s.payments && t.fundings == s.fundings
    ensures e.date == x.spentOn && e.lines == ExpenseLines(x, VatInAccount(s.accounts))
  {
    var t := RecordExpense(s, input).state;
    x, e := t.expenses[|s.expenses|].value, t.entries[|s.entries|];
  }

  lemma ExpensePosted(s: State, id: Id)
    requires Recorded(s) && Row(s.expenses, id).Some?
    ensures var x := Row(s.expenses, id).value; PostedAs(s.entries, x.entry, x.spentOn, ExpenseLines(x, VatInAccount(s.accounts)))
  {
    assert ExpenseSound(s.accounts, s.entries, s.expenses[id - 1].value);
  }

  lemma ExpenseDeletionReverses(s: State, id: Id, x: ExpenseRow)
    requires Row(s.expenses, id) == Some(x) && x.entry != 0 && DeleteExpense(s, id).Done?
    ensures Reverse(s, x.entry, None).Done?
    ensures DeleteExpense(s, id).state.entries == Reverse(s, x.entry, None).state.entries
    ensures DeleteExpense(s, id).state.accounts == s.accounts
  {
  }

  lemma ExpenseDeletionDrops(s: State, id: Id)
    requires DeleteExpense(s, id).Done?
    ensures var t := DeleteExpense(s, id).state;
            1 <= id <= |s.expenses| && t == s.(entries := t.entries, expenses := s.expenses[id - 1 := None])
  {
  }

  lemma ExpenseDeletionEffect(s: State, id: Id, w: Window, a: Id)
    requires Recorded(s) && DeleteExpense(s, id).Done?
    ensures Row(s.expenses, id).Some?
    ensures var t, x := DeleteExpense(s, id).state, Row(s.expenses, id).value;
            && t == s.(entries := t.entries, expenses := s.expenses[id - 1 := None])
            && Net(t.entries, w, a) == Net(s.entries, w, a) - Seen(w, s.today, ExpenseLines(x, VatInAccount(s.accounts)), a)
  {
    ExpenseDeletionDrops(s, id);
    ExpensePosted(s, id);
    var x := Row(s.expenses, id).value;
    ExpenseDeletionReverses(s, id, x);
    ReversalMovesNet(s, x.entry, None, w, a);
  }

  lemma ExpenseDeletionMovesGap(s: State, id: Id, w: Window, a: Id)
    requires Recorded(s) && DeleteExpense(s, id).Done?
    ensures var x := Row(s.expenses, id).value;
            Gap(DeleteExpense(s, id).state, w, a)
            == Gap(s, w, a) + Shift(s, w, x.spentOn, ExpenseLines(x, VatInAccount(s.accounts)), a)
  {
    ExpenseDeletionEffect(s, id, w, a);
    SumSet(s.expenses, id - 1, None, FromSpent(w, a, VatInAccount(s.accounts)));
  }

  lemma FundedGap(s: State, t: State, f: Funding, e: Entry, w: Window, a: Id)
    requires t.entries == s.entries + [e] && t.fundings == s.fundings + [Some(f)]
    requires t.accounts == s.accounts && t.docs == s.docs && t.payments == s.payments && t.expenses == s.expenses
    requires e.date == f.receivedOn && e.lines == FundingLines(f)
    ensures Gap(t, w, a) == Gap(s, w, a)
  {
    EntryMovesNet(s, t, e, w, a);
    SumSnoc(s.fundings, Some(f), FromFunded(w, a));
  }

  lemma FundingWrites(s: State, input: FundingInput) returns (f: Funding, e: Entry)
    requires RecordFunding(s, input).Done?
    ensures var t := RecordFunding(s, input).state;
            && t.entries == s.entries + [e] && t.fundings == s.fundings + [Some(f)]
            && t.accounts == s.accounts && t.docs == s.docs && t.payments == s.payments && t.expenses == s.expenses
    ensures e.date == f.receivedOn && e.lines == FundingLines(f)
  {
    var t := RecordFunding(s, input).state;
    f, e := t.fundings[|s.fundings|].value, t.entries[|s.entries|];
  }

  lemma FundingPosted(s: State, id: Id)
    requires Recorded(s) && Row(s.fundings, id).Some?
    ensures var f := Row(s.fundings, id).value; PostedAs(s.entries, f.entry, f.receivedOn, FundingLines(f))
  {
    assert FundingSound(s.entries, s.fundings[id - 1].value);
  }

  lemma FundingDeletionReverses(s: State, id: Id, f: Funding)
    requires Row(s.fundings, id) == Some(f) && f.entry != 0 && DeleteFunding(s, id).Done?
    ensures Reverse(s, f.entry, None).Done?
    ensures DeleteFunding(s, id).state.entries == Reverse(s, f.entry, None).state.entries
    ensures DeleteFunding(s, id).state.accounts == s.accounts
  {
  }

  lemma FundingDeletionDrops(s: State, id: Id)
    requires DeleteFunding(s, id).Done?
    ensures var t := DeleteFunding(s, id).state;
            1 <= id <= |s.fundings| && t == s.(entries := t.entries, fundings := s.fundings[id - 1 := None])
  {
  }

  lemma FundingDeletionEffect(s: State, id: Id, w: Window, a: Id)
    requires Recorded(s) && DeleteFunding(s, id).Done?
    ensures Row(s.fundings, id).Some?
    ensures var t, f := DeleteFunding(s, id).state, Row(s.fundings, id).value;
            && t == s.(entries := t.entries, fundings := s.fundings[id - 1 := None])
            && Net(t.entries, w, a) == Net(s.entries, w, a) - Seen(w, s.today, FundingLines(f), a)
  {
    FundingDeletionDrops(s, id);
    FundingPosted(s, id);
    var f := Row(s.fundings, id).value;
    FundingDeletionReverses(s, id, f);
    ReversalMovesNet(s, f.entry, None, w, a);
  }

  lemma FundingDeletionMovesGap(s: State, t: State, id: Id, w: Window, a: Id)
    requires Row(s.fundings, id).Some?
    requires t == s.(entries := t.entries, fundings := s.fundings[id - 1 := None])
    requires Net(t.entries, w, a) == Net(s.entries, w, a) - Seen(w, s.today, FundingLines(Row(s.fundings, id).value), a)
    ensures var f := Row(s.fundings, id).value;
            Gap(t, w, a) == Gap(s, w, a) + Shift(s, w, f.receivedOn, FundingLines(f), a)
  {
    SumSet(s.fundings, id - 1, None, FromFunded(w, a));
  }

  /** Drafts post nothing, so editing them moves nothing. */
  lemma DraftsKeepGap(s: State, step: Step, w: Window, a: Id)
    requires EditsDrafts(step)
    ensures Gap(After(s, step), w, a) == Gap(s, w, a)
  {
    var d, id := DraftSteps(s, step);
    DraftMoveKeepsGap(s, After(s, step), d, id, w, a);
  }

  lemma DraftMoveKeepsGap(s: State, t: State, d: Doc, id: Id, w: Window, a: Id)
    requires DraftMove(s, t, d, id)
    ensures Gap(t, w, a) == Gap(s, w, a)
  {
    var f := FromDoc(w, a, ArAccount(s.accounts), VatOutAccount(s.accounts));
    if t.docs == s.docs + [Some(d)] {
      SumSnoc(s.docs, Some(d), f);
    } else if t.docs != s.docs {
      SumSet(s.docs, id - 1, t.docs[id - 1], f);
    }
    assert DocSources(t, w, a) == DocSources(s, w, a);
  }

  predicate Writes(step: Step) {
    || MovesDocs(step) || step.DoPost? || step.DoReverse?
    || step.DoRecordExpense? || step.DoDeleteExpense? || step.DoRecordFunding? || step.DoDeleteFunding?
  }

  lemma OthersKeepTables(s: State, step: Step)
    requires !Writes(step)
    ensures var t := After(s, step);
            && t.docs == s.docs && t.payments == s.payments && t.expenses == s.expenses && t.fundings == s.fundings
            && t.entries == s.entries
  {
  }

  lemma OthersKeepGap(s: State, step: Step, w: Window, a: Id)
    requires !Writes(step)
    ensures Gap(After(s, step), w, a) == Gap(s, w, a)
  {
    var t := After(s, step);
    OthersKeepTables(s, step);
    StepKeepsChart(s, step);
    KeysStayPut(s.accounts, t.accounts, ArKey);
    KeysStayPut(s.accounts, t.accounts, VatOutputKey);
    KeysStayPut(s.accounts, t.accounts, VatInputKey);
  }

  predicate Records(step: Step) {
    step.DoIssue? || step.DoRecordPayment? || step.DoRecordExpense? || step.DoRecordFunding?
  }

  predicate Removes(step: Step) {
    step.DoVoid? || step.DoDeletePayment? || step.DoDeleteExpense? || step.DoDeleteFunding?
  }

  /** A step done by hand: a journal posting or a reversal asked for directly. */
  predicate ByHand(step: Step) {
    step.DoPost? || step.DoReverse?
  }

  lemma RecordingKeepsGap(s: State, step: Step, w: Window, a: Id)
    requires Records(step)
    ensures Gap(After(s, step), w, a) == Gap(s, w, a)
  {
    if Perform(s, step).Done? {
      match step
      case DoIssue(id) =>
        var issued, e := IssueWrites(s, id);
        IssuedGap(s, After(s, step), id, issued, e, w, a);
      case DoRecordPayment(input) =>
        var p, e := PaymentWrites(s, input);
        PaidGap(s, After(s, step), p, e, w, a);
      case DoRecordExpense(input) =>
        var x, e := ExpenseWrites(s, input);
        SpentGap(s, After(s, step), x, e, w, a);
      case DoRecordFunding(input) =>
        var f, e := FundingWrites(s, input);
        FundedGap(s, After(s, step), f, e, w, a);
    }
  }

  lemma RemovalMovesGap(s: State, step: Step, w: Window, a: Id)
    requires Recorded(s) && Removes(step)
    ensures Gap(After(s, step), w, a) == Gap(s, w, a) + Drift(s, step, w, a)
  {
    if Perform(s, step).Done? {
      match step
      case DoVoid(id) => VoidMovesGap(s, id, w, a);
      case DoDeletePayment(id) => PaymentDeletionMovesGap(s, id, w, a);
      case DoDeleteExpense(id) => ExpenseDeletionMovesGap(s, id, w, a);
      case DoDeleteFunding(id) =>
        FundingDeletionEffect(s, id, w, a);
        FundingDeletionMovesGap(s, After(s, step), id, w, a);
    }
  }

  /** A new entry alone moves the gap by what it shows. */
  lemma EntryMovesGap(s: State, e: Entry, w: Window, a: Id)
    ensures Gap(AddEntry(s, e), w, a) == Gap(s, w, a) + Seen(w, e.date, e.lines, a)
  {
    EntryMovesNet(s, AddEntry(s, e), e, w, a);
    assert Sources(AddEntry(s, e), w, a) == Sources(s, w, a);
  }

  lemma PostMovesGap(s: State, date: Option<Date>, source: Source, sourceId: Id, reverses: Id, lines: seq<Line>, w: Window, a: Id)
    requires Post(s, date, source, sourceId, reverses, lines).Done?
    ensures Gap(Post(s, date, source, sourceId, reverses, lines).state, w, a) == Gap(s, w, a) + Seen(w, date.GetOr(s.today), lines, a)
  {
    EntryMovesGap(s, Entry(date.GetOr(s.today), source, sourceId, reverses, lines), w, a);
  }

  lemma ReversalMovesGap(s: State, id: Id, date: Option<Date>, w: Window, a: Id)
    requires Reverse(s, id, date).Done?
    ensures 1 <= id <= |s.entries|
    ensures Gap(Reverse(s, id, date).state, w, a) == Gap(s, w, a) - Seen(w, date.GetOr(s.today), s.entries[id - 1].lines, a)
  {
    var e := s.entries[id - 1];
    PostMovesGap(s, date, e.source, e.sourceId, id, Mirror(e.lines), w, a);
    MirrorCancels(e.lines, a);
  }

  lemma PostStepMovesGap(s: State, step: Step, w: Window, a: Id)
    requires step.DoPost? && Perform(s, step).Done?
    ensures Gap(After(s, step), w, a) == Gap(s, w, a) + Drift(s, step, w, a)
  {
    PostMovesGap(s, step.date, step.source, step.sourceId, step.reverses, step.lines, w, a);
  }

  lemma ReverseStepMovesGap(s: State, step: Step, w: Window, a: Id)
    requires step.DoReverse? && Perform(s, step).Done?
    ensures Gap(After(s, step), w, a) == Gap(s, w, a) + Drift(s, step, w, a)
  {
    ReversalMovesGap(s, step.id, step.date, w, a);
  }

  lemma HandMovesGap(s: State, step: Step, w: Window, a: Id)
    requires ByHand(step)
    ensures Gap(After(s, step), w, a) == Gap(s, w, a) + Drift(s, step, w, a)
  {
    if Perform(s, step).Done? {
      if step.DoPost? {
        PostStepMovesGap(s, step, w, a);
      } else {
        ReverseStepMovesGap(s, step, w, a);
      }
    }
  }

  /** Every step moves the gap on every account and window by exactly its drift. */
  lemma StepMovesGap(s: State, step: Step, w: Window, a: Id)
    requires Recorded(s)
    ensures Gap(After(s, step), w, a) == Gap(s, w, a) + Drift(s, step, w, a)
  {
    if Records(step) {
      RecordingKeepsGap(s, step, w, a);
    } else if Removes(step) {
      RemovalMovesGap(s, step, w, a);
    } else if ByHand(step) {
      HandMovesGap(s, step, w, a);
    } else if EditsDrafts(step) {
      DraftsKeepGap(s, step, w, a);
    } else {
      OthersKeepGap(s, step, w, a);
    }
  }

  // ---- whole runs ----

  function RunDrift(s: State, steps: seq<Step>, w: Window, a: Id): Money {
    if steps == [] then 0
    else
      var rest := steps[..|steps| - 1];
      RunDrift(s, rest, w, a) + Drift(Run(s, rest), steps[|steps| - 1], w, a)
  }

  /**
  Conservation. From fresh books, after any run, on every account and over every window: the
  journal is the live sources plus the drift of the run, to the unit.
  */
  lemma {:induction false} LedgerIsItsSources(s: State, steps: seq<Step>, w: Window, a: Id)
    requires Fresh(s) && AllClean(steps)
    ensures var t := Run(s, steps);
            Net(t.entries, w, a) == Sources(t, w, a) + RunDrift(s, steps, w, a)
  {
    if steps != [] {
      var rest := steps[..|steps| - 1];
      LedgerIsItsSources(s, rest, w, a);
      ReachableIsSound(s, rest);
      StepMovesGap(Run(s, rest), steps[|steps| - 1], w, a);
    }
  }

  /** Over all time, removals leave no shift: what is voided or deleted is gone from both sides. */
  lemma RemovalsDoNotDriftOverall(s: State, step: Step, a: Id)
    requires !ByHand(step)
    ensures Drift(s, step, AllTime, a) == 0
  {
  }

  /** A hand posting that keeps off the account. */
  predicate KeepsOff(s: State, step: Step, a: Id) {
    ByHand(step) ==> Drift(s, step, AllTime, a) == 0
  }

  ghost predicate RunKeepsOff(s: State, steps: seq<Step>, a: Id) {
    steps != [] ==>
      && RunKeepsOff(s, steps[..|steps| - 1], a)
      && KeepsOff(Run(s, steps[..|steps| - 1]), steps[|steps| - 1], a)
  }

  lemma {:induction false} NoDriftOverall(s: State, steps: seq<Step>, a: Id)
    requires RunKeepsOff(s, steps, a)
    ensures RunDrift(s, steps, AllTime, a) == 0
  {
    if steps != [] {
      NoDriftOverall(s, steps[..|steps| - 1], a);
      if !ByHand(steps[|steps| - 1]) {
        RemovalsDoNotDriftOverall(Run(s, steps[..|steps| - 1]), steps[|steps| - 1], a);
      }
    }
  }
}
