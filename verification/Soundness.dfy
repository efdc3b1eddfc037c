/**
What holds of the tables and the journal together in every reachable state: each recorded
document, payment, expense and funding row points at the very entry it would post, and every
document's paid total and status follow from the payment rows against it.
*/
module Soundness {
  import opened Options
  import opened Sums
  import opened Amounts
  import opened Ledger
  import opened Documents
  import opened Books
  import opened Journal

  // ---- rows and the entries they posted ----

  predicate PostedAs(entries: seq<Entry>, id: Id, date: Date, lines: seq<Line>) {
    1 <= id <= |entries| && entries[id - 1].date == date && entries[id - 1].lines == lines
  }

  predicate DocSound(accounts: seq<Account>, entries: seq<Entry>, d: Doc) {
    && TotalsAgree(d)
    && d.lines != []
    && (forall j :: 0 <= j < |d.lines| ==> HasAccount(accounts, d.lines[j].income))
    && (d.status != Draft ==>
          && FindKey(accounts, ArKey).Some?
          && (d.vat != 0 ==> FindKey(accounts, VatOutputKey).Some?)
          && PostedAs(entries, d.entry, d.issueDate, LinesOfDoc(accounts, d)))
  }

  ghost predicate DocsSound(accounts: seq<Account>, entries: seq<Entry>, docs: seq<Option<Doc>>) {
    forall i :: 0 <= i < |docs| && docs[i].Some? ==> DocSound(accounts, entries, docs[i].value)
  }

  predicate PaymentSound(accounts: seq<Account>, entries: seq<Entry>, p: Payment) {
    && p.amount > 0
    && FindKey(accounts, ArKey).Some?
    && PostedAs(entries, p.entry, p.paidOn, PaymentLines(p, ArAccount(accounts)))
  }

  ghost predicate PaymentsSound(accounts: seq<Account>, entries: seq<Entry>, payments: seq<Option<Payment>>) {
    forall i :: 0 <= i < |payments| && payments[i].Some? ==> PaymentSound(accounts, entries, payments[i].value)
  }

  predicate ExpenseSound(accounts: seq<Account>, entries: seq<Entry>, x: ExpenseRow) {
    && x.total == x.net + x.vat
    && (x.vat != 0 && x.reclaimable ==> FindKey(accounts, VatInputKey).Some?)
    && PostedAs(entries, x.entry, x.spentOn, ExpenseLines(x, VatInAccount(accounts)))
  }

  ghost predicate ExpensesSound(accounts: seq<Account>, entries: seq<Entry>, expenses: seq<Option<ExpenseRow>>) {
    forall i :: 0 <= i < |expenses| && expenses[i].Some? ==> ExpenseSound(accounts, entries, expenses[i].value)
  }

  predicate FundingSound(entries: seq<Entry>, f: Funding) {
    f.amount > 0 && PostedAs(entries, f.entry, f.receivedOn, FundingLines(f))
  }

  ghost predicate FundingsSound(entries: seq<Entry>, fundings: seq<Option<Funding>>) {
    forall i :: 0 <= i < |fundings| && fundings[i].Some? ==> FundingSound(entries, fundings[i].value)
  }

  // ---- payments and the documents they settle ----

  /** Payments are only ever held against live documents. */
  ghost predicate PaymentsPlaced(docs: seq<Option<Doc>>, payments: seq<Option<Payment>>) {
    forall i :: 0 <= i < |payments| && payments[i].Some? ==>
      Row(docs, payments[i].value.invoice).Some? && Row(docs, payments[i].value.invoice).value.Live()
  }

  predicate PaidSound(d: Doc, paid: Money) {
    && d.paid == paid
    && (d.paid > 0 ==> d.paid <= d.total)
    && (d.Live() ==> d.status == PaymentStatus(d))
    && (!d.Live() ==> d.paid == 0)
  }

  ghost predicate AllPaidSound(docs: seq<Option<Doc>>, payments: seq<Option<Payment>>) {
    forall i :: 0 <= i < |docs| && docs[i].Some? ==> PaidSound(docs[i].value, Sum(payments, PaidFor(i + 1)))
  }

  ghost predicate Recorded(s: State) {
    && GoodJournal(s.accounts, s.entries)
    && DocsSound(s.accounts, s.entries, s.docs)
    && PaymentsSound(s.accounts, s.entries, s.payments)
    && ExpensesSound(s.accounts, s.entries, s.expenses)
    && FundingsSound(s.entries, s.fundings)
  }

  ghost predicate Settled(s: State) {
    && PaymentsSound(s.accounts, s.entries, s.payments)
    && PaymentsPlaced(s.docs, s.payments)
    && AllPaidSound(s.docs, s.payments)
  }

  ghost predicate Sound(s: State) {
    Recorded(s) && Settled(s)
  }

  /** Books before anything was recorded in them; the chart, rates and periods are arbitrary. */
  ghost predicate Fresh(s: State) {
    s.entries == [] && s.docs == [] && s.payments == [] && s.expenses == [] && s.fundings == []
  }

  /** A new draft that claims to be paid already is stored as it is handed in. */
  predicate Clean(step: Step) {
    step.DoCreateDraft? ==> step.input.paid == 0
  }

  // ---- what survives a longer journal and a longer chart ----

  lemma DocPersists(s: State, accounts: seq<Account>, entries: seq<Entry>, d: Doc)
    requires DocSound(s.accounts, s.entries, d) && ChartGrows(s.accounts, accounts) && s.entries <= entries
    ensures DocSound(accounts, entries, d)
  {
    KeysStayPut(s.accounts, accounts, ArKey);
    KeysStayPut(s.accounts, accounts, VatOutputKey);
  }

  lemma PaymentPersists(s: State, accounts: seq<Account>, entries: seq<Entry>, p: Payment)
    requires PaymentSound(s.accounts, s.entries, p) && ChartGrows(s.accounts, accounts) && s.entries <= entries
    ensures PaymentSound(accounts, entries, p)
  {
    KeysStayPut(s.accounts, accounts, ArKey);
  }

  lemma ExpensePersists(s: State, accounts: seq<Account>, entries: seq<Entry>, x: ExpenseRow)
    requires ExpenseSound(s.accounts, s.entries, x) && ChartGrows(s.accounts, accounts) && s.entries <= entries
    ensures ExpenseSound(accounts, entries, x)
  {
    KeysStayPut(s.accounts, accounts, VatInputKey);
  }

  lemma RecordedPersists(s: State, accounts: seq<Account>, entries: seq<Entry>)
    requires Recorded(s) && ChartGrows(s.accounts, accounts) && s.entries <= entries
    ensures DocsSound(accounts, entries, s.docs)
    ensures PaymentsSound(accounts, entries, s.payments)
    ensures ExpensesSound(accounts, entries, s.expenses)
    ensures FundingsSound(entries, s.fundings)
  {
    forall d | DocSound(s.accounts, s.entries, d)
      ensures DocSound(accounts, entries, d)
    {
      DocPersists(s, accounts, entries, d);
    }
    forall p | PaymentSound(s.accounts, s.entries, p)
      ensures PaymentSound(accounts, entries, p)
    {
      PaymentPersists(s, accounts, entries, p);
    }
    forall x | ExpenseSound(s.accounts, s.entries, x)
      ensures ExpenseSound(accounts, entries, x)
    {
      ExpensePersists(s, accounts, entries, x);
    }
  }

  lemma PreparedIsSound(s: State, input: DocInput, entries: seq<Entry>)
    requires Prepare(s, input).Passed?
    ensures DocSound(s.accounts, entries, Prepare(s, input).row)
    ensures Prepare(s, input).row.status == Draft && Prepare(s, input).row.number == ""
    ensures Prepare(s, input).row.paid == input.paid
  {
    var p := PricingFor(s, input.reverseCharge).value;
    var lines := PriceLines(p, input.lines).value;
    forall j | 0 <= j < |lines|
      ensures HasAccount(s.accounts, lines[j].income)
    {
      assert PriceLine(p, input.lines[j]) == Some(lines[j]);
    }
  }

  /** A document keeps its totals, lines and entry when only its paid total and status move. */
  lemma StatusMovesAlone(accounts: seq<Account>, entries: seq<Entry>, d: Doc, paid: Money, status: Status)
    requires DocSound(accounts, entries, d) && d.status != Draft
    ensures DocSound(accounts, entries, d.(paid := paid, status := status))
  {
  }

  lemma RecalcKeepsDocs(accounts: seq<Account>, entries: seq<Entry>, docs: seq<Option<Doc>>, payments: seq<Option<Payment>>, id: Id)
    requires DocsSound(accounts, entries, docs)
    requires Row(docs, id).Some? ==> Row(docs, id).value.status != Draft
    ensures DocsSound(accounts, entries, Recalc(docs, payments, id))
  {
    match Row(docs, id)
    case None =>
    case Some(d) => StatusMovesAlone(accounts, entries, d, Sum(payments, PaidFor(id)), PaymentStatus(d.(paid := Sum(payments, PaidFor(id)))));
  }

  predicate EditsDrafts(step: Step) {
    step.DoCreateDraft? || step.DoUpdateDraft? || step.DoDeleteDraft? || step.DoCreditNote? || step.DoBillTime?
  }

  predicate MovesDocs(step: Step) {
    EditsDrafts(step) || step.DoIssue? || step.DoVoid? || step.DoRecordPayment? || step.DoDeletePayment?
  }

  /** What editing drafts can do to the table: append a draft, replace one, or remove one. */
  ghost predicate DraftMove(s: State, t: State, d: Doc, id: Id) {
    && t == s.(docs := t.docs)
    && (|| t.docs == s.docs
        || (t.docs == s.docs + [Some(d)] && DocSound(s.accounts, s.entries, d) && d.status == Draft && d.number == "")
        || (&& Row(s.docs, id).Some? && Row(s.docs, id).value.status == Draft
            && (|| t.docs == s.docs[id - 1 := None]
                || (&& t.docs == s.docs[id - 1 := Some(d)]
                    && DocSound(s.accounts, s.entries, d) && d.status == Draft
                    && d.number == Row(s.docs, id).value.number && d.paid == Row(s.docs, id).value.paid))))
  }

  lemma CreateIsDraftMove(s: State, input: DocInput) returns (d: Doc)
    ensures CreateDraft(s, input).Done? ==>
      var t := CreateDraft(s, input).state;
      && t == s.(docs := s.docs + [Some(d)])
      && DocSound(s.accounts, s.entries, d) && d.status == Draft && d.number == "" && d.paid == input.paid
      && Prepare(s, input) == Passed(d)
  {
    if CreateDraft(s, input).Done? {
      PreparedIsSound(s, input, s.entries);
      d := Prepare(s, input).row;
    } else {
      d :| true;
    }
  }

  lemma UpdateIsDraftMove(s: State, id: Id, input: DocInput) returns (d: Doc)
    ensures DraftMove(s, After(s, DoUpdateDraft(id, input)), d, id)
  {
    if UpdateDraft(s, id, input).Done? {
      PreparedIsSound(s, input.(kind := Row(s.docs, id).value.kind), s.entries);
      d := UpdateDraft(s, id, input).state.docs[id - 1].value;
    } else {
      d :| true;
    }
  }

  /** Every step that edits drafts is such a move; the new draft is unpaid when the step is clean. */
  lemma DraftSteps(s: State, step: Step) returns (d: Doc, id: Id)
    requires EditsDrafts(step)
    ensures DraftMove(s, After(s, step), d, id)
    ensures Clean(step) && After(s, step).docs == s.docs + [Some(d)] ==> d.paid == 0
  {
    id := 0;
    match step
    case DoCreateDraft(input) => d := CreateIsDraftMove(s, input);
    case DoUpdateDraft(id', input) =>
      id := id';
      d := UpdateIsDraftMove(s, id', input);
    case DoDeleteDraft(id') =>
      id := id';
      d :| true;
    case DoCreditNote(id', lines) =>
      if RaiseCreditNote(s, id', lines).Done? {
        d := CreateIsDraftMove(s, CreditInput(s, id', Row(s.docs, id').value, lines));
      } else {
        d :| true;
      }
    case DoBillTime(f) =>
      if BillTime(s, f).Done? {
        d := CreateIsDraftMove(s, TimeInput(s, Unbilled(s, f), FindKey(s.accounts, SalesKey).value));
      } else {
        d :| true;
      }
  }

  lemma IssueRecords(s: State, id: Id)
    requires Recorded(s) && Issue(s, id).Done?
    ensures var t := Issue(s, id).state; DocsSound(t.accounts, t.entries, t.docs)
  {
    var t := Issue(s, id).state;
    RecordedPersists(s, t.accounts, t.entries);
    assert DocSound(t.accounts, t.entries, t.docs[id - 1].value);
  }

  lemma VoidRecords(s: State, id: Id)
    requires Recorded(s) && VoidDoc(s, id).Done?
    ensures var t := VoidDoc(s, id).state; DocsSound(t.accounts, t.entries, t.docs)
  {
    var t := VoidDoc(s, id).state;
    RecordedPersists(s, t.accounts, t.entries);
    StatusMovesAlone(t.accounts, t.entries, Row(s.docs, id).value, Row(s.docs, id).value.paid, Void);
  }

  lemma PaymentRecords(s: State, input: PaymentInput)
    requires Recorded(s) && RecordPayment(s, input).Done?
    ensures var t := RecordPayment(s, input).state; DocsSound(t.accounts, t.entries, t.docs)
  {
    var t := RecordPayment(s, input).state;
    RecordedPersists(s, t.accounts, t.entries);
    RecalcKeepsDocs(t.accounts, t.entries, s.docs, t.payments, input.invoice);
  }

  lemma DeletionRecords(s: State, id: Id)
    requires Recorded(s) && PaymentsPlaced(s.docs, s.payments) && DeletePayment(s, id).Done?
    ensures var t := DeletePayment(s, id).state; DocsSound(t.accounts, t.entries, t.docs)
  {
    var t := DeletePayment(s, id).state;
    RecordedPersists(s, t.accounts, t.entries);
    RecalcKeepsDocs(t.accounts, t.entries, s.docs, t.payments, Row(s.payments, id).value.invoice);
  }

  lemma DocsUntouched(s: State, step: Step)
    requires !MovesDocs(step)
    ensures After(s, step).docs == s.docs
    ensures After(s, step).payments == s.payments
  {
  }

  lemma DraftMoveRecords(s: State, t: State, d: Doc, id: Id)
    requires Recorded(s) && DraftMove(s, t, d, id)
    ensures DocsSound(t.accounts, t.entries, t.docs)
  {
  }

  lemma DocsStayRecorded(s: State, step: Step)
    requires Recorded(s) && PaymentsPlaced(s.docs, s.payments)
    ensures var t := After(s, step); DocsSound(t.accounts, t.entries, t.docs)
  {
    if EditsDrafts(step) {
      var d, id := DraftSteps(s, step);
      DraftMoveRecords(s, After(s, step), d, id);
    } else if MovesDocs(step) {
      if Perform(s, step).Done? {
        match step
        case DoIssue(id) => IssueRecords(s, id);
        case DoVoid(id) => VoidRecords(s, id);
        case DoRecordPayment(p) => PaymentRecords(s, p);
        case DoDeletePayment(id) => DeletionRecords(s, id);
      }
    } else {
      StepGrowsJournal(s, step);
      StepKeepsChart(s, step);
      RecordedPersists(s, After(s, step).accounts, After(s, step).entries);
      DocsUntouched(s, step);
    }
  }

  lemma PaymentRowIsRecorded(s: State, input: PaymentInput)
    requires Recorded(s) && RecordPayment(s, input).Done?
    ensures var t := RecordPayment(s, input).state; PaymentsSound(t.accounts, t.entries, t.payments)
  {
    var t := RecordPayment(s, input).state;
    RecordedPersists(s, t.accounts, t.entries);
    assert PaymentSound(t.accounts, t.entries, t.payments[|s.payments|].value);
  }

  lemma ExpenseRowIsRecorded(s: State, input: ExpenseInput)
    requires Recorded(s) && RecordExpense(s, input).Done?
    ensures var t := RecordExpense(s, input).state; ExpensesSound(t.accounts, t.entries, t.expenses)
  {
    var t := RecordExpense(s, input).state;
    RecordedPersists(s, t.accounts, t.entries);
    assert ExpenseSound(t.accounts, t.entries, t.expenses[|s.expenses|].value);
  }

  lemma FundingRowIsRecorded(s: State, input: FundingInput)
    requires Recorded(s) && RecordFunding(s, input).Done?
    ensures var t := RecordFunding(s, input).state; FundingsSound(t.entries, t.fundings)
  {
    var t := RecordFunding(s, input).state;
    RecordedPersists(s, t.accounts, t.entries);
    assert FundingSound(t.entries, t.fundings[|s.fundings|].value);
  }

  /** Rows other than documents: each table only ever gains one row or loses one. */
  lemma PaymentTable(s: State, step: Step)
    ensures var t := After(s, step).payments;
            || t == s.payments || step.DoRecordPayment?
            || (step.DoDeletePayment? && Row(s.payments, step.id).Some? && t == s.payments[step.id - 1 := None])
  {
  }

  lemma ExpenseTable(s: State, step: Step)
    ensures var t := After(s, step).expenses;
            || t == s.expenses || step.DoRecordExpense?
            || (step.DoDeleteExpense? && Row(s.expenses, step.id).Some? && t == s.expenses[step.id - 1 := None])
  {
  }

  lemma FundingTable(s: State, step: Step)
    ensures var t := After(s, step).fundings;
            || t == s.fundings || step.DoRecordFunding?
            || (step.DoDeleteFunding? && Row(s.fundings, step.id).Some? && t == s.fundings[step.id - 1 := None])
  {
  }

  /** The same rows, or one fewer. */
  predicate SameOrFewer<T(==)>(before: seq<Option<T>>, after: seq<Option<T>>, id: Id) {
    after == before || (1 <= id <= |before| && after == before[id - 1 := None])
  }

  lemma RowsLeftStayRecorded(s: State, t: State, id: Id)
    requires Recorded(s) && s.entries <= t.entries && ChartGrows(s.accounts, t.accounts)
    ensures SameOrFewer(s.payments, t.payments, id) ==> PaymentsSound(t.accounts, t.entries, t.payments)
    ensures SameOrFewer(s.expenses, t.expenses, id) ==> ExpensesSound(t.accounts, t.entries, t.expenses)
    ensures SameOrFewer(s.fundings, t.fundings, id) ==> FundingsSound(t.entries, t.fundings)
  {
    RecordedPersists(s, t.accounts, t.entries);
  }

  function RemovedRow(step: Step): Id {
    match step
    case DoDeletePayment(id) => id
    case DoDeleteExpense(id) => id
    case DoDeleteFunding(id) => id
    case _ => 0
  }

  lemma GrowthStaysGood(s: State, t: State)
    requires GoodJournal(s.accounts, s.entries) && JournalGrows(s, t) && ChartGrows(s.accounts, t.accounts)
    ensures GoodJournal(t.accounts, t.entries)
  {
  }

  lemma OldRowsStayRecorded(s: State, step: Step)
    requires Recorded(s)
    ensures var t := After(s, step);
            && (!step.DoRecordPayment? ==> PaymentsSound(t.accounts, t.entries, t.payments))
            && (!step.DoRecordExpense? ==> ExpensesSound(t.accounts, t.entries, t.expenses))
            && (!step.DoRecordFunding? ==> FundingsSound(t.entries, t.fundings))
  {
    StepGrowsJournal(s, step);
    StepKeepsChart(s, step);
    PaymentTable(s, step);
    ExpenseTable(s, step);
    FundingTable(s, step);
    RowsLeftStayRecorded(s, After(s, step), RemovedRow(step));
  }

  lemma RowsStayRecorded(s: State, step: Step)
    requires Recorded(s) && PaymentsPlaced(s.docs, s.payments)
    ensures Recorded(After(s, step))
  {
    if Perform(s, step).Done? {
      StepGrowsJournal(s, step);
      StepKeepsChart(s, step);
      GrowthStaysGood(s, After(s, step));
      DocsStayRecorded(s, step);
      OldRowsStayRecorded(s, step);
      NewRowIsRecorded(s, step);
    }
  }

  lemma NewRowIsRecorded(s: State, step: Step)
    requires Recorded(s) && Perform(s, step).Done?
    ensures var t := After(s, step);
            && (step.DoRecordPayment? ==> PaymentsSound(t.accounts, t.entries, t.payments))
            && (step.DoRecordExpense? ==> ExpensesSound(t.accounts, t.entries, t.expenses))
            && (step.DoRecordFunding? ==> FundingsSound(t.entries, t.fundings))
  {
    match step
    case DoRecordPayment(p) => PaymentRowIsRecorded(s, p);
    case DoRecordExpense(x) => ExpenseRowIsRecorded(s, x);
    case DoRecordFunding(f) => FundingRowIsRecorded(s, f);
    case _ =>
  }

  // ---- payments ----

  ghost predicate AllPositive(payments: seq<Option<Payment>>) {
    forall i :: 0 <= i < |payments| && payments[i].Some? ==> payments[i].value.amount > 0
  }

  lemma NoPaymentsWhenUnpaid(payments: seq<Option<Payment>>, id: Id)
    requires AllPositive(payments)
    requires Sum(payments, PaidFor(id)) == 0
    ensures forall i :: 0 <= i < |payments| && payments[i].Some? ==> payments[i].value.invoice != id
  {
    forall i | 0 <= i < |payments| && payments[i].Some?
      ensures payments[i].value.invoice != id
    {
      SumAtLeast(payments, i, PaidFor(id));
    }
  }

  lemma PaymentsToNothing(payments: seq<Option<Payment>>, id: Id)
    requires forall i :: 0 <= i < |payments| && payments[i].Some? ==> payments[i].value.invoice != id
    ensures Sum(payments, PaidFor(id)) == 0
  {
    SumNone(payments, PaidFor(id));
  }

  lemma AmountsArePositive(s: State)
    requires PaymentsSound(s.accounts, s.entries, s.payments)
    ensures AllPositive(s.payments)
  {
  }

  /** A draft appended to the table: nothing can have been paid against an id not yet given out. */
  lemma NewDraftSettles(s: State, d: Doc)
    requires Settled(s) && d.status == Draft
    ensures PaymentsPlaced(s.docs + [Some(d)], s.payments)
    ensures AllPaidSound(s.docs + [Some(d)], s.payments) <==> d.paid == 0
  {
    var docs := s.docs + [Some(d)];
    PaymentsToNothing(s.payments, |s.docs| + 1);
    assert docs[|s.docs|] == Some(d);
    assert PaidSound(d, 0) <==> d.paid == 0;
  }

  /** A live document refreshed from the payments stays settled, while what was paid is not more than its total. */
  lemma RefreshedIsSettled(d: Doc, paid: Money)
    requires d.Live() && 0 <= paid && (paid > 0 ==> paid <= d.total)
    ensures var e := d.(paid := paid, status := PaymentStatus(d.(paid := paid)));
            e.Live() && PaidSound(e, paid)
  {
  }

  /** Refreshing one document settles the table, when only payments against it changed. */
  lemma RecalcSettlesTable(docs: seq<Option<Doc>>, before: seq<Option<Payment>>, after: seq<Option<Payment>>, id: Id)
    requires AllPaidSound(docs, before) && Row(docs, id).Some? && Row(docs, id).value.Live()
    requires forall other :: other != id ==> Sum(after, PaidFor(other)) == Sum(before, PaidFor(other))
    requires 0 <= Sum(after, PaidFor(id)) && (Sum(after, PaidFor(id)) > 0 ==> Sum(after, PaidFor(id)) <= Row(docs, id).value.total)
    requires PaymentsPlaced(docs, after)
    ensures AllPaidSound(Recalc(docs, after, id), after) && PaymentsPlaced(Recalc(docs, after, id), after)
  {
    RefreshedIsSettled(Row(docs, id).value, Sum(after, PaidFor(id)));
    forall i | 0 <= i < |docs| && docs[i].Some? && i != id - 1
      ensures PaidSound(docs[i].value, Sum(after, PaidFor(i + 1)))
    {
      assert PaidSound(docs[i].value, Sum(before, PaidFor(i + 1)));
    }
  }

  /** The payment is appended, and the document it is against is refreshed. */
  lemma PaymentMovesRows(s: State, input: PaymentInput) returns (p: Payment)
    requires RecordPayment(s, input).Done?
    ensures var t := RecordPayment(s, input).state;
            && t.payments == s.payments + [Some(p)] && t.docs == Recalc(s.docs, t.payments, input.invoice)
    ensures p.invoice == input.invoice && p.amount == input.amount > 0
    ensures Row(s.docs, input.invoice).Some? && Row(s.docs, input.invoice).value.Live()
    ensures input.amount <= Row(s.docs, input.invoice).value.Outstanding()
  {
    p := RecordPayment(s, input).state.payments[|s.payments|].value;
  }

  /** What a payment adds to the paid total of each document. */
  lemma AppendedPaymentCounts(payments: seq<Option<Payment>>, p: Payment, other: Id)
    ensures Sum(payments + [Some(p)], PaidFor(other)) == Sum(payments, PaidFor(other)) + if other == p.invoice then p.amount else 0
  {
    SumSnoc(payments, Some(p), PaidFor(other));
  }

  lemma RemovedPaymentCounts(payments: seq<Option<Payment>>, id: Id, p: Payment, other: Id)
    requires Row(payments, id) == Some(p)
    ensures Sum(payments[id - 1 := None], PaidFor(other)) == Sum(payments, PaidFor(other)) - if other == p.invoice then p.amount else 0
  {
    SumSet(payments, id - 1, None, PaidFor(other));
  }

  lemma AppendedPaymentSettles(docs: seq<Option<Doc>>, payments: seq<Option<Payment>>, p: Payment)
    requires PaymentsPlaced(docs, payments) && AllPaidSound(docs, payments) && AllPositive(payments) && p.amount > 0
    requires Row(docs, p.invoice).Some? && Row(docs, p.invoice).value.Live() && p.amount <= Row(docs, p.invoice).value.Outstanding()
    ensures AllPaidSound(Recalc(docs, payments + [Some(p)], p.invoice), payments + [Some(p)])
    ensures PaymentsPlaced(Recalc(docs, payments + [Some(p)], p.invoice), payments + [Some(p)])
  {
    var after := payments + [Some(p)];
    forall other
      ensures Sum(after, PaidFor(other)) == Sum(payments, PaidFor(other)) + if other == p.invoice then p.amount else 0
    {
      AppendedPaymentCounts(payments, p, other);
    }
    assert PaidSound(docs[p.invoice - 1].value, Sum(payments, PaidFor(p.invoice - 1 + 1)));
    SumNonNegative(payments, PaidFor(p.invoice));
    RecalcSettlesTable(docs, payments, after, p.invoice);
  }

  /** The payment's row is emptied, and the document it was against is refreshed. */
  lemma DeletionMovesRows(s: State, id: Id) returns (p: Payment)
    requires DeletePayment(s, id).Done?
    ensures Row(s.payments, id) == Some(p)
    ensures var t := DeletePayment(s, id).state;
            t.payments == s.payments[id - 1 := None] && t.docs == Recalc(s.docs, t.payments, p.invoice)
  {
    p := Row(s.payments, id).value;
  }

  lemma RemovedPaymentSettles(docs: seq<Option<Doc>>, payments: seq<Option<Payment>>, id: Id, p: Payment)
    requires PaymentsPlaced(docs, payments) && AllPaidSound(docs, payments) && AllPositive(payments)
    requires Row(payments, id) == Some(p)
    ensures AllPaidSound(Recalc(docs, payments[id - 1 := None], p.invoice), payments[id - 1 := None])
    ensures PaymentsPlaced(Recalc(docs, payments[id - 1 := None], p.invoice), payments[id - 1 := None])
  {
    var after := payments[id - 1 := None];
    forall other
      ensures Sum(after, PaidFor(other)) == Sum(payments, PaidFor(other)) - if other == p.invoice then p.amount else 0
    {
      RemovedPaymentCounts(payments, id, p, other);
    }
    assert payments[id - 1].Some? && Row(docs, p.invoice).Some? && Row(docs, p.invoice).value.Live();
    assert PaidSound(docs[p.invoice - 1].value, Sum(payments, PaidFor(p.invoice - 1 + 1)));
    SumNonNegative(after, PaidFor(p.invoice));
    RecalcSettlesTable(docs, payments, after, p.invoice);
  }

  lemma VoidSettles(s: State, id: Id)
    requires Settled(s) && VoidDoc(s, id).Done?
    ensures var t := VoidDoc(s, id).state; PaymentsPlaced(t.docs, t.payments) && AllPaidSound(t.docs, t.payments)
  {
    AmountsArePositive(s);
    assert PaidSound(s.docs[id - 1].value, Sum(s.payments, PaidFor(id - 1 + 1)));
    NoPaymentsWhenUnpaid(s.payments, id);
  }

  lemma IssuedDocSettles(docs: seq<Option<Doc>>, payments: seq<Option<Payment>>, id: Id, d: Doc)
    requires PaymentsPlaced(docs, payments) && AllPaidSound(docs, payments)
    requires Row(docs, id).Some? && Row(docs, id).value.status == Draft
    requires d.status == Issued && d.paid == Row(docs, id).value.paid
    ensures PaymentsPlaced(docs[id - 1 := Some(d)], payments) && AllPaidSound(docs[id - 1 := Some(d)], payments)
  {
    assert PaidSound(docs[id - 1].value, Sum(payments, PaidFor(id - 1 + 1)));
  }

  lemma IssueSettles(s: State, id: Id)
    requires Settled(s) && Issue(s, id).Done?
    ensures var t := Issue(s, id).state; PaymentsPlaced(t.docs, t.payments) && AllPaidSound(t.docs, t.payments)
  {
    IssuedDocSettles(s.docs, s.payments, id, Issue(s, id).state.docs[id - 1].value);
  }

  /** Replacing or deleting a draft leaves every settled document alone. */
  lemma DraftEditSettles(s: State, id: Id, row: Option<Doc>)
    requires Settled(s) && Row(s.docs, id).Some? && Row(s.docs, id).value.status == Draft
    requires row.Some? ==> row.value.status == Draft && row.value.paid == Row(s.docs, id).value.paid
    ensures PaymentsPlaced(s.docs[id - 1 := row], s.payments) && AllPaidSound(s.docs[id - 1 := row], s.payments)
  {
    assert PaidSound(s.docs[id - 1].value, Sum(s.payments, PaidFor(id - 1 + 1)));
  }

  lemma DraftsSettle(s: State, step: Step)
    requires Settled(s) && Clean(step) && EditsDrafts(step)
    ensures var t := After(s, step); PaymentsPlaced(t.docs, t.payments) && AllPaidSound(t.docs, t.payments)
  {
    var t := After(s, step);
    var d, id := DraftSteps(s, step);
    if t.docs == s.docs + [Some(d)] {
      NewDraftSettles(s, d);
    } else if t.docs != s.docs {
      DraftEditSettles(s, id, t.docs[id - 1]);
    }
  }

  lemma PaymentsStaySettled(s: State, step: Step)
    requires Sound(s) && Clean(step)
    ensures var t := After(s, step); PaymentsPlaced(t.docs, t.payments) && AllPaidSound(t.docs, t.payments)
  {
    AmountsArePositive(s);
    if EditsDrafts(step) {
      DraftsSettle(s, step);
    } else if MovesDocs(step) {
      if Perform(s, step).Done? {
        match step
        case DoIssue(id) => IssueSettles(s, id);
        case DoVoid(id) => VoidSettles(s, id);
        case DoRecordPayment(input) =>
          var p := PaymentMovesRows(s, input);
          AppendedPaymentSettles(s.docs, s.payments, p);
        case DoDeletePayment(id) =>
          var p := DeletionMovesRows(s, id);
          RemovedPaymentSettles(s.docs, s.payments, id, p);
      }
    } else {
      DocsUntouched(s, step);
    }
  }

  lemma StepKeepsSound(s: State, step: Step)
    requires Sound(s) && Clean(step)
    ensures Sound(After(s, step))
  {
    RowsStayRecorded(s, step);
    PaymentsStaySettled(s, step);
  }

  ghost predicate AllClean(steps: seq<Step>) {
    forall i :: 0 <= i < |steps| ==> Clean(steps[i])
  }

  /**
  In every state reachable from fresh books: every entry balances and names real accounts; every
  issued document, payment, expense and funding row points at the entry it posts, dated as the
  row is; each document's paid total is the sum of its payment rows, never above its total, and
  its status is the one that follows; void documents and drafts carry no payment.
  */
  lemma {:induction false} ReachableIsSound(s: State, steps: seq<Step>)
    requires Fresh(s) && AllClean(steps)
    ensures Sound(Run(s, steps))
  {
    if steps != [] {
      ReachableIsSound(s, steps[..|steps| - 1]);
      StepKeepsSound(Run(s, steps[..|steps| - 1]), steps[|steps| - 1]);
    }
  }

  /** Exactly when a handed-in draft leaves the payment bookkeeping true: when it claims nothing is paid. */
  lemma DraftMustBeUnpaid(s: State, input: DocInput)
    requires Sound(s) && CreateDraft(s, input).Done?
    ensures Settled(CreateDraft(s, input).state) <==> input.paid == 0
  {
    PreparedIsSound(s, input, s.entries);
    NewDraftSettles(s, Prepare(s, input).row);
  }
}
