/**
Where each entry comes from. A row and the entry it points at name each other, so no two rows
ever share an entry.
*/
module Provenance {
  import opened Options
  import opened Amounts
  import opened Ledger
  import opened Documents
  import opened Books
  import opened Journal
  import opened Soundness
  import opened Numbering

  /** The entry was posted for this row, and is no reversal. */
  predicate PostedFor(entries: seq<Entry>, id: Id, source: Source, row: Id) {
    1 <= id <= |entries| && entries[id - 1].source == source && entries[id - 1].sourceId == row && entries[id - 1].reverses == 0
  }

  function SourceOf(kind: DocKind): Source {
    if kind == CreditNote then FromCreditNote else FromInvoice
  }

  ghost predicate DocsTraced(entries: seq<Entry>, docs: seq<Option<Doc>>) {
    forall i :: IsIssued(docs, i) ==> PostedFor(entries, docs[i].value.entry, SourceOf(docs[i].value.kind), i + 1)
  }

  ghost predicate PaymentsTraced(entries: seq<Entry>, payments: seq<Option<Payment>>) {
    forall i :: 0 <= i < |payments| && payments[i].Some? ==> PostedFor(entries, payments[i].value.entry, FromPayment, i + 1)
  }

  ghost predicate ExpensesTraced(entries: seq<Entry>, expenses: seq<Option<ExpenseRow>>) {
    forall i :: 0 <= i < |expenses| && expenses[i].Some? ==> PostedFor(entries, expenses[i].value.entry, FromExpense, i + 1)
  }

  ghost predicate FundingsTraced(entries: seq<Entry>, fundings: seq<Option<Funding>>) {
    forall i :: 0 <= i < |fundings| && fundings[i].Some? ==> PostedFor(entries, fundings[i].value.entry, FromFunding, i + 1)
  }

  ghost predicate Traced(s: State) {
    && DocsTraced(s.entries, s.docs) && PaymentsTraced(s.entries, s.payments)
    && ExpensesTraced(s.entries, s.expenses) && FundingsTraced(s.entries, s.fundings)
  }

  // ---- one step ----

  lemma IssueEntry(s: State, id: Id)
    requires Issue(s, id).Done?
    ensures var t := Issue(s, id).state;
            && IsIssued(t.docs, id - 1)
            && PostedFor(t.entries, t.docs[id - 1].value.entry, SourceOf(t.docs[id - 1].value.kind), id)
  {
  }

  lemma DocsStayTraced(s: State, step: Step)
    requires DocsTraced(s.entries, s.docs) && PaymentsPlaced(s.docs, s.payments)
    ensures DocsTraced(After(s, step).entries, After(s, step).docs)
  {
    var t := After(s, step);
    StepGrowsJournal(s, step);
    StepKeepsDocs(s, step);
    if step.DoIssue? && Perform(s, step).Done? {
      IssueKeeps(s, step.id);
      IssueEntry(s, step.id);
      DocsTracedOn(s.entries, t.entries, s.docs, t.docs, step.id - 1);
    } else if step.DoIssue? {
      assert t == s;
    } else {
      DocsTracedOn(s.entries, t.entries, s.docs, t.docs, -1);
    }
  }

  lemma DocsTracedOn(entries: seq<Entry>, later: seq<Entry>, docs: seq<Option<Doc>>, after: seq<Option<Doc>>, at: int)
    requires DocsTraced(entries, docs) && entries <= later && DocsKept(docs, after)
    requires forall i :: IsIssued(after, i) && i != at ==> IsIssued(docs, i)
    requires IsIssued(after, at) ==> PostedFor(later, after[at].value.entry, SourceOf(after[at].value.kind), at + 1)
    ensures DocsTraced(later, after)
  {
    forall i | IsIssued(after, i) && i != at
      ensures PostedFor(later, after[i].value.entry, SourceOf(after[i].value.kind), i + 1)
    {
      assert IsIssued(docs, i) && Frozen(docs[i].value, after[i].value);
    }
  }

  lemma PaymentEntry(s: State, input: PaymentInput)
    requires RecordPayment(s, input).Done?
    ensures var t := RecordPayment(s, input).state;
            && |t.payments| == |s.payments| + 1 && t.payments[..|s.payments|] == s.payments
            && t.payments[|s.payments|].Some?
            && PostedFor(t.entries, t.payments[|s.payments|].value.entry, FromPayment, |s.payments| + 1)
  {
  }

  lemma PaymentsStayTraced(s: State, step: Step)
    requires PaymentsTraced(s.entries, s.payments)
    ensures PaymentsTraced(After(s, step).entries, After(s, step).payments)
  {
    StepGrowsJournal(s, step);
    if step.DoRecordPayment? && Perform(s, step).Done? {
      PaymentEntry(s, step.payment);
    } else {
      PaymentTable(s, step);
    }
  }

  lemma ExpenseEntry(s: State, input: ExpenseInput)
    requires RecordExpense(s, input).Done?
    ensures var t := RecordExpense(s, input).state;
            && |t.expenses| == |s.expenses| + 1 && t.expenses[..|s.expenses|] == s.expenses
            && t.expenses[|s.expenses|].Some?
            && PostedFor(t.entries, t.expenses[|s.expenses|].value.entry, FromExpense, |s.expenses| + 1)
  {
  }

  lemma ExpensesStayTraced(s: State, step: Step)
    requires ExpensesTraced(s.entries, s.expenses)
    ensures ExpensesTraced(After(s, step).entries, After(s, step).expenses)
  {
    StepGrowsJournal(s, step);
    if step.DoRecordExpense? && Perform(s, step).Done? {
      ExpenseEntry(s, step.expense);
    } else {
      ExpenseTable(s, step);
    }
  }

  lemma FundingEntry(s: State, input: FundingInput)
    requires RecordFunding(s, input).Done?
    ensures var t := RecordFunding(s, input).state;
            && |t.fundings| == |s.fundings| + 1 && t.fundings[..|s.fundings|] == s.fundings
            && t.fundings[|s.fundings|].Some?
            && PostedFor(t.entries, t.fundings[|s.fundings|].value.entry, FromFunding, |s.fundings| + 1)
  {
  }

  lemma FundingsStayTraced(s: State, step: Step)
    requires FundingsTraced(s.entries, s.fundings)
    ensures FundingsTraced(After(s, step).entries, After(s, step).fundings)
  {
    StepGrowsJournal(s, step);
    if step.DoRecordFunding? && Perform(s, step).Done? {
      FundingEntry(s, step.funding);
    } else {
      FundingTable(s, step);
    }
  }

  /**
  In every reachable state each issued document, payment, expense and funding row points at an
  entry that carries the row's own kind and id and reverses nothing.
  */
  lemma {:induction false} EveryRowIsTraced(s: State, steps: seq<Step>)
    requires Fresh(s) && AllClean(steps)
    ensures Traced(Run(s, steps))
  {
    if steps != [] {
      var prior, last := Run(s, steps[..|steps| - 1]), steps[|steps| - 1];
      EveryRowIsTraced(s, steps[..|steps| - 1]);
      ReachableIsSound(s, steps[..|steps| - 1]);
      DocsStayTraced(prior, last);
      PaymentsStayTraced(prior, last);
      ExpensesStayTraced(prior, last);
      FundingsStayTraced(prior, last);
    }
  }

  // ---- no two rows share an entry ----

  datatype RowRef = DocRow(i: nat) | PaymentRow(i: nat) | ExpenseRowAt(i: nat) | FundingRow(i: nat)

  /** The entry a row points at, when the row is there and has posted. */
  function EntryOf(s: State, r: RowRef): Option<Id> {
    match r
    case DocRow(i) => if IsIssued(s.docs, i) then Some(s.docs[i].value.entry) else None
    case PaymentRow(i) => if i < |s.payments| && s.payments[i].Some? then Some(s.payments[i].value.entry) else None
    case ExpenseRowAt(i) => if i < |s.expenses| && s.expenses[i].Some? then Some(s.expenses[i].value.entry) else None
    case FundingRow(i) => if i < |s.fundings| && s.fundings[i].Some? then Some(s.fundings[i].value.entry) else None
  }

  /** Two rows of whatever tables that point at one entry are one row. */
  lemma NoEntryIsShared(s: State, a: RowRef, b: RowRef)
    requires Traced(s) && EntryOf(s, a).Some? && EntryOf(s, a) == EntryOf(s, b)
    ensures a == b
  {
  }
}
