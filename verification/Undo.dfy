/**
What one operation takes back of another. Deleting or voiding leaves the row's number and history
behind, but no money: every account ends where it started.
*/
module Undo {
  import opened Options
  import opened Sums
  import opened Amounts
  import opened Ledger
  import opened Documents
  import opened Books
  import opened Journal
  import opened Soundness
  import opened Reconciliation

  /** Every account holds what it held. */
  ghost predicate SameBalances(s: State, t: State) {
    forall a :: Net(t.entries, AllTime, a) == Net(s.entries, AllTime, a)
  }

  ghost predicate SameSources(s: State, t: State) {
    forall a :: Sources(t, AllTime, a) == Sources(s, AllTime, a)
  }

  /** The step is accepted, and goes from one state to the other. */
  predicate Takes(s: State, step: Step, t: State) {
    Perform(s, step).Done? && After(s, step) == t
  }

  /** Two steps, neither by hand, that leave the live rows posting the same leave every balance the same. */
  lemma BackWhereItStarted(s: State, first: Step, t: State, second: Step, u: State)
    requires Sound(s) && Clean(first) && !ByHand(first) && !ByHand(second)
    requires Takes(s, first, t) && Takes(t, second, u) && SameSources(s, u)
    ensures SameBalances(s, u)
  {
    StepKeepsSound(s, first);
    forall a
      ensures Net(u.entries, AllTime, a) == Net(s.entries, AllTime, a)
    {
      StepMovesGap(s, first, AllTime, a);
      StepMovesGap(t, second, AllTime, a);
      RemovalsDoNotDriftOverall(s, first, a);
      RemovalsDoNotDriftOverall(t, second, a);
      assert Sources(u, AllTime, a) == Sources(s, AllTime, a);
    }
  }

  // ---- payments ----

  predicate AddsPayment(s: State, t: State, id: Id) {
    && |t.payments| == |s.payments| + 1
    && t.payments[|s.payments|].Some? && t.payments[|s.payments|].value.invoice == id
    && t == s.(entries := t.entries, payments := s.payments + [t.payments[|s.payments|]], docs := Recalc(s.docs, t.payments, id))
    && Row(s.docs, id).Some? && Row(s.docs, id).value.Live()
  }

  predicate DropsPayment(t: State, u: State, id: Id) {
    && Row(t.payments, id).Some?
    && u == t.(entries := u.entries, payments := t.payments[id - 1 := None],
               docs := Recalc(t.docs, u.payments, Row(t.payments, id).value.invoice))
  }

  lemma PaymentShape(s: State, input: PaymentInput, t: State)
    requires Takes(s, DoRecordPayment(input), t)
    ensures AddsPayment(s, t, input.invoice)
  {
  }

  lemma PaymentDeletionShape(t: State, id: Id, u: State)
    requires Takes(t, DoDeletePayment(id), u)
    ensures DropsPayment(t, u, id)
  {
  }

  /** Refreshing a document twice is refreshing it once, and refreshing a settled one does nothing. */
  lemma RecalcSettles(docs: seq<Option<Doc>>, meanwhile: seq<Option<Payment>>, payments: seq<Option<Payment>>, id: Id)
    requires AllPaidSound(docs, payments) && Row(docs, id).Some? && Row(docs, id).value.Live()
    ensures Recalc(Recalc(docs, meanwhile, id), payments, id) == docs
  {
    var once := Recalc(docs, meanwhile, id);
    assert PaidSound(docs[id - 1].value, Sum(payments, PaidFor(id - 1 + 1)));
    assert Recalc(once, payments, id)[id - 1] == docs[id - 1];
  }

  lemma RecalcReadsTheSum(docs: seq<Option<Doc>>, payments: seq<Option<Payment>>, others: seq<Option<Payment>>, id: Id)
    requires Sum(payments, PaidFor(id)) == Sum(others, PaidFor(id))
    ensures Recalc(docs, payments, id) == Recalc(docs, others, id)
  {
  }

  lemma PaymentGone(s: State, t: State, u: State, id: Id)
    requires Settled(s) && AddsPayment(s, t, id) && DropsPayment(t, u, |s.payments| + 1)
    ensures u == s.(entries := u.entries, payments := s.payments + [None])
  {
    assert u.payments == s.payments + [None];
    SumSnoc(s.payments, None, PaidFor(id));
    RecalcReadsTheSum(t.docs, u.payments, s.payments, id);
    RecalcSettles(s.docs, t.payments, s.payments, id);
  }

  lemma NoPaymentPostsNothing(s: State, u: State)
    requires u == s.(entries := u.entries, payments := s.payments + [None])
    ensures SameSources(s, u)
  {
    forall a
      ensures Sources(u, AllTime, a) == Sources(s, AllTime, a)
    {
      SumSnoc(s.payments, None, FromPaid(AllTime, a, ArAccount(s.accounts)));
    }
  }

  /** Deleting a payment just recorded restores every document and every balance. */
  lemma DeletingUndoesPayment(s: State, input: PaymentInput, t: State, u: State)
    requires Sound(s) && Takes(s, DoRecordPayment(input), t) && Takes(t, DoDeletePayment(|s.payments| + 1), u)
    ensures u == s.(entries := u.entries, payments := s.payments + [None])
    ensures SameBalances(s, u)
  {
    PaymentShape(s, input, t);
    PaymentDeletionShape(t, |s.payments| + 1, u);
    PaymentGone(s, t, u, input.invoice);
    NoPaymentPostsNothing(s, u);
    BackWhereItStarted(s, DoRecordPayment(input), t, DoDeletePayment(|s.payments| + 1), u);
  }

  // ---- expenses ----

  predicate AddsExpense(s: State, t: State) {
    |t.expenses| == |s.expenses| + 1 && t == s.(entries := t.entries, expenses := s.expenses + [t.expenses[|s.expenses|]])
  }

  predicate DropsExpense(t: State, u: State, id: Id) {
    1 <= id <= |t.expenses| && u == t.(entries := u.entries, expenses := t.expenses[id - 1 := None])
  }

  lemma ExpenseShape(s: State, input: ExpenseInput, t: State)
    requires Takes(s, DoRecordExpense(input), t)
    ensures AddsExpense(s, t)
  {
  }

  lemma ExpenseDeletionShape(t: State, id: Id, u: State)
    requires Takes(t, DoDeleteExpense(id), u)
    ensures DropsExpense(t, u, id)
  {
  }

  lemma ExpenseGone(s: State, t: State, u: State)
    requires AddsExpense(s, t) && DropsExpense(t, u, |s.expenses| + 1)
    ensures u == s.(entries := u.entries, expenses := s.expenses + [None])
    ensures SameSources(s, u)
  {
    forall a
      ensures Sources(u, AllTime, a) == Sources(s, AllTime, a)
    {
      SumSnoc(s.expenses, None, FromSpent(AllTime, a, VatInAccount(s.accounts)));
    }
  }

  /** Deleting an expense just recorded restores every balance. */
  lemma DeletingUndoesExpense(s: State, input: ExpenseInput, t: State, u: State)
    requires Sound(s) && Takes(s, DoRecordExpense(input), t) && Takes(t, DoDeleteExpense(|s.expenses| + 1), u)
    ensures u == s.(entries := u.entries, expenses := s.expenses + [None])
    ensures SameBalances(s, u)
  {
    ExpenseShape(s, input, t);
    ExpenseDeletionShape(t, |s.expenses| + 1, u);
    ExpenseGone(s, t, u);
    BackWhereItStarted(s, DoRecordExpense(input), t, DoDeleteExpense(|s.expenses| + 1), u);
  }

  // ---- owner funding ----

  predicate AddsFunding(s: State, t: State) {
    |t.fundings| == |s.fundings| + 1 && t == s.(entries := t.entries, fundings := s.fundings + [t.fundings[|s.fundings|]])
  }

  predicate DropsFunding(t: State, u: State, id: Id) {
    1 <= id <= |t.fundings| && u == t.(entries := u.entries, fundings := t.fundings[id - 1 := None])
  }

  lemma FundingShape(s: State, input: FundingInput, t: State)
    requires Takes(s, DoRecordFunding(input), t)
    ensures AddsFunding(s, t)
  {
  }

  lemma FundingDeletionShape(t: State, id: Id, u: State)
    requires Takes(t, DoDeleteFunding(id), u)
    ensures DropsFunding(t, u, id)
  {
  }

  lemma FundingGone(s: State, t: State, u: State)
    requires AddsFunding(s, t) && DropsFunding(t, u, |s.fundings| + 1)
    ensures u == s.(entries := u.entries, fundings := s.fundings + [None])
    ensures SameSources(s, u)
  {
    forall a
      ensures Sources(u, AllTime, a) == Sources(s, AllTime, a)
    {
      SumSnoc(s.fundings, None, FromFunded(AllTime, a));
    }
  }

  /** Deleting a funding movement just recorded restores every balance. */
  lemma DeletingUndoesFunding(s: State, input: FundingInput, t: State, u: State)
    requires Sound(s) && Takes(s, DoRecordFunding(input), t) && Takes(t, DoDeleteFunding(|s.fundings| + 1), u)
    ensures u == s.(entries := u.entries, fundings := s.fundings + [None])
    ensures SameBalances(s, u)
  {
    FundingShape(s, input, t);
    FundingDeletionShape(t, |s.fundings| + 1, u);
    FundingGone(s, t, u);
    BackWhereItStarted(s, DoRecordFunding(input), t, DoDeleteFunding(|s.fundings| + 1), u);
  }

  // ---- issue and void ----

  ghost predicate IssuesRow(s: State, t: State, id: Id) {
    && Row(s.docs, id).Some? && !Row(s.docs, id).value.Live()
    && |t.docs| == |s.docs| && t.docs == s.docs[id - 1 := t.docs[id - 1]] && t.docs[id - 1].Some?
    && t.docs[id - 1].value.number == NumberFor(Row(s.docs, id).value.kind, NextOf(s, Row(s.docs, id).value.kind))
    && t.accounts == s.accounts && t.payments == s.payments && t.expenses == s.expenses && t.fundings == s.fundings
  }

  ghost predicate VoidsRow(t: State, u: State, id: Id) {
    && Row(t.docs, id).Some?
    && u == t.(entries := u.entries, docs := t.docs[id - 1 := Some(Row(t.docs, id).value.(status := Void))])
  }

  /** The only row that differs is the document's, now void under the number it was issued with. */
  ghost predicate VoidAfterIssue(s: State, u: State, id: Id) {
    && Row(s.docs, id).Some? && !Row(s.docs, id).value.Live()
    && Row(u.docs, id).Some? && Row(u.docs, id).value.status == Void
    && Row(u.docs, id).value.number == NumberFor(Row(s.docs, id).value.kind, NextOf(s, Row(s.docs, id).value.kind))
    && u.docs == s.docs[id - 1 := Row(u.docs, id)]
    && u.accounts == s.accounts && u.payments == s.payments && u.expenses == s.expenses && u.fundings == s.fundings
  }

  lemma IssueShape(s: State, id: Id, t: State)
    requires Takes(s, DoIssue(id), t)
    ensures IssuesRow(s, t, id)
  {
  }

  lemma VoidShape(t: State, id: Id, u: State)
    requires Takes(t, DoVoid(id), u)
    ensures VoidsRow(t, u, id)
  {
  }

  lemma IssuedThenVoided(s: State, t: State, u: State, id: Id)
    requires IssuesRow(s, t, id) && VoidsRow(t, u, id)
    ensures VoidAfterIssue(s, u, id)
  {
  }

  lemma NeitherDraftNorVoidPosts(docs: seq<Option<Doc>>, id: Id, row: Option<Doc>, a: Id, ar: Id, vatOut: Id)
    requires Row(docs, id).Some? && !Row(docs, id).value.Live() && row.Some? && !row.value.Live()
    ensures Sum(docs[id - 1 := row], FromDoc(AllTime, a, ar, vatOut)) == Sum(docs, FromDoc(AllTime, a, ar, vatOut))
  {
    SumSet(docs, id - 1, row, FromDoc(AllTime, a, ar, vatOut));
  }

  lemma OnlyLiveDocumentsPost(s: State, u: State, id: Id)
    requires VoidAfterIssue(s, u, id)
    ensures SameSources(s, u)
  {
    forall a
      ensures Sources(u, AllTime, a) == Sources(s, AllTime, a)
    {
      NeitherDraftNorVoidPosts(s.docs, id, Row(u.docs, id), a, ArAccount(s.accounts), VatOutAccount(s.accounts));
    }
  }

  /** Voiding a document just issued restores every balance; its number stays used. */
  lemma VoidingUndoesIssue(s: State, id: Id, t: State, u: State)
    requires Sound(s) && Takes(s, DoIssue(id), t) && Takes(t, DoVoid(id), u)
    ensures VoidAfterIssue(s, u, id)
    ensures SameBalances(s, u)
  {
    IssueShape(s, id, t);
    VoidShape(t, id, u);
    IssuedThenVoided(s, t, u, id);
    OnlyLiveDocumentsPost(s, u, id);
    BackWhereItStarted(s, DoIssue(id), t, DoVoid(id), u);
  }
}
