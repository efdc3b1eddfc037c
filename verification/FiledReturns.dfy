/**
A VAT return after it was filed. The journal of a locked window never moves, but the figures of
a return are read off documents, expenses and the rate table as they stand: exactly which steps
move which figure, and by how much.
*/
module FiledReturns {
  import opened Options
  import opened Sums
  import opened Amounts
  import opened Ledger
  import opened Documents
  import opened Books
  import opened Journal
  import opened Statements
  import opened Soundness
  import opened Reconciliation
  import opened ControlAccounts

  // ---- figures read off documents ----

  /** Another stage of the same live document. */
  predicate Resettled(d: Doc, e: Doc) {
    d.Live() && e.Live() && e == d.(paid := e.paid, status := e.status)
  }

  predicate IsFiled(w: Window, row: Option<Doc>) {
    row.Some? && row.value.Live() && w.Holds(row.value.issueDate)
  }

  /** A figure of a return: read off the live documents of the window, whatever has been paid on them. */
  ghost predicate FiledFigure(w: Window, f: Option<Doc> -> int) {
    && (forall row :: !IsFiled(w, row) ==> f(row) == 0)
    && forall d, e :: Resettled(d, e) ==> f(Some(d)) == f(Some(e))
  }

  /** What voiding takes out of a figure. */
  function Voided(s: State, step: Step, f: Option<Doc> -> int): int {
    if step.DoVoid? && Perform(s, step).Done? then f(Row(s.docs, step.id)) else 0
  }

  lemma DraftMoveKeepsFigure(s: State, t: State, d: Doc, id: Id, w: Window, f: Option<Doc> -> int)
    requires DraftMove(s, t, d, id) && FiledFigure(w, f)
    ensures Sum(t.docs, f) == Sum(s.docs, f)
  {
    if t.docs == s.docs + [Some(d)] {
      assert d.status == Draft && !IsFiled(w, Some(d));
      SumSnoc(s.docs, Some(d), f);
    } else if t.docs != s.docs {
      assert !IsFiled(w, s.docs[id - 1]) && !IsFiled(w, t.docs[id - 1]);
      SumSet(s.docs, id - 1, t.docs[id - 1], f);
    }
  }

  lemma RecalcKeepsFigure(docs: seq<Option<Doc>>, payments: seq<Option<Payment>>, id: Id, w: Window, f: Option<Doc> -> int)
    requires FiledFigure(w, f) && (Row(docs, id).Some? ==> Row(docs, id).value.Live())
    ensures Sum(Recalc(docs, payments, id), f) == Sum(docs, f)
  {
    if Row(docs, id).Some? {
      var after := Recalc(docs, payments, id)[id - 1];
      assert Resettled(docs[id - 1].value, after.value);
      SumSet(docs, id - 1, after, f);
    }
  }

  lemma IssueKeepsFigure(s: State, id: Id, w: Window, f: Option<Doc> -> int)
    requires Issue(s, id).Done? && WholeWindowLocked(s, w) && FiledFigure(w, f)
    ensures Sum(Issue(s, id).state.docs, f) == Sum(s.docs, f)
  {
    var after := Issue(s, id).state.docs[id - 1];
    assert !w.Holds(s.docs[id - 1].value.issueDate);
    assert !IsFiled(w, s.docs[id - 1]) && !IsFiled(w, after);
    SumSet(s.docs, id - 1, after, f);
  }

  lemma VoidMovesFigure(s: State, id: Id, w: Window, f: Option<Doc> -> int)
    requires VoidDoc(s, id).Done? && FiledFigure(w, f)
    ensures Sum(VoidDoc(s, id).state.docs, f) == Sum(s.docs, f) - f(Row(s.docs, id))
  {
    var void := Some(Row(s.docs, id).value.(status := Void));
    assert !IsFiled(w, void);
    SumSet(s.docs, id - 1, void, f);
  }

  lemma PaymentKeepsFigure(s: State, input: PaymentInput, w: Window, f: Option<Doc> -> int)
    requires RecordPayment(s, input).Done? && FiledFigure(w, f)
    ensures Sum(RecordPayment(s, input).state.docs, f) == Sum(s.docs, f)
  {
    RecalcKeepsFigure(s.docs, RecordPayment(s, input).state.payments, input.invoice, w, f);
  }

  lemma PaymentDeletionKeepsFigure(s: State, id: Id, w: Window, f: Option<Doc> -> int)
    requires PaymentsPlaced(s.docs, s.payments) && DeletePayment(s, id).Done? && FiledFigure(w, f)
    ensures Sum(DeletePayment(s, id).state.docs, f) == Sum(s.docs, f)
  {
    RecalcKeepsFigure(s.docs, DeletePayment(s, id).state.payments, Row(s.payments, id).value.invoice, w, f);
  }

  /** While its window is locked, any figure read off documents moves by what is voided and by nothing else. */
  lemma StepMovesFigure(s: State, step: Step, w: Window, f: Option<Doc> -> int)
    requires Sound(s) && WholeWindowLocked(s, w) && FiledFigure(w, f)
    ensures Sum(After(s, step).docs, f) == Sum(s.docs, f) - Voided(s, step, f)
  {
    if EditsDrafts(step) {
      var d, id := DraftSteps(s, step);
      DraftMoveKeepsFigure(s, After(s, step), d, id, w, f);
    } else if MovesDocs(step) {
      if Perform(s, step).Done? {
        match step
        case DoIssue(id) => IssueKeepsFigure(s, id, w, f);
        case DoVoid(id) => VoidMovesFigure(s, id, w, f);
        case DoRecordPayment(p) => PaymentKeepsFigure(s, p, w, f);
        case DoDeletePayment(id) => PaymentDeletionKeepsFigure(s, id, w, f);
      }
    } else {
      DocsUntouched(s, step);
    }
  }

  // ---- figures read off expenses ----

  ghost predicate FiledPurchase(w: Window, g: Option<ExpenseRow> -> int) {
    forall row: Option<ExpenseRow> :: !(row.Some? && w.Holds(row.value.spentOn)) ==> g(row) == 0
  }

  lemma ExpensesStand(s: State, step: Step)
    requires !step.DoRecordExpense? && !step.DoDeleteExpense?
    ensures After(s, step).expenses == s.expenses
  {
  }

  lemma RecordedOutside(s: State, input: ExpenseInput, w: Window, g: Option<ExpenseRow> -> int)
    requires RecordExpense(s, input).Done? && WholeWindowLocked(s, w) && FiledPurchase(w, g)
    ensures Sum(RecordExpense(s, input).state.expenses, g) == Sum(s.expenses, g)
  {
    var added := RecordExpense(s, input).state.expenses[|s.expenses|];
    assert !w.Holds(added.value.spentOn);
    SumSnoc(s.expenses, added, g);
  }

  lemma DeletedOutside(s: State, id: Id, w: Window, g: Option<ExpenseRow> -> int)
    requires DeleteExpense(s, id).Done? && WholeWindowLocked(s, w) && FiledPurchase(w, g)
    ensures Sum(DeleteExpense(s, id).state.expenses, g) == Sum(s.expenses, g)
  {
    assert !w.Holds(s.expenses[id - 1].value.spentOn);
    assert DeleteExpense(s, id).state.expenses == s.expenses[id - 1 := None];
    SumSet(s.expenses, id - 1, None, g);
  }

  lemma StepKeepsPurchases(s: State, step: Step, w: Window, g: Option<ExpenseRow> -> int)
    requires WholeWindowLocked(s, w) && FiledPurchase(w, g)
    ensures Sum(After(s, step).expenses, g) == Sum(s.expenses, g)
  {
    if step.DoRecordExpense? {
      if Perform(s, step).Done? {
        RecordedOutside(s, step.expense, w, g);
      }
    } else if step.DoDeleteExpense? {
      if Perform(s, step).Done? {
        DeletedOutside(s, step.id, w, g);
      }
    } else {
      ExpensesStand(s, step);
    }
  }

  // ---- the rate table ----

  function NetAt(r: Id): DocLine -> int {
    (l: DocLine) => if l.rate == r then l.net else 0
  }

  function SalesAt(w: Window, r: Id): Option<Doc> -> int {
    (row: Option<Doc>) => if IsFiled(w, row) then Signed(row.value.kind, Sum(row.value.lines, NetAt(r))) else 0
  }

  /** Net sales of the window on lines at one rate, credit notes negated. */
  function SalesAtRate(s: State, w: Window, r: Id): Money {
    Sum(s.docs, SalesAt(w, r))
  }

  function Counts(kind: VatKind, box: VatKind): int {
    if BoxOf(kind) == box then 1 else 0
  }

  /** The row a rate is saved in. */
  function SavedAs(s: State, id: Id): Id {
    if id == 0 then |s.rates| + 1 else id
  }

  /** Editing the treatment of a rate carries the sales at that rate from one box to another. */
  function Reboxed(s: State, step: Step, w: Window, box: VatKind): Money {
    if step.DoSaveRate? && Perform(s, step).Done? then
      var r := SavedAs(s, step.id);
      (Counts(step.vatRate.kind, box) - Counts(TreatmentOf(s.rates, r), box)) * SalesAtRate(s, w, r)
    else 0
  }

  lemma LinesRebox(lines: seq<DocLine>, before: seq<VatRate>, after: seq<VatRate>, r: Id, box: VatKind)
    requires forall id :: id != r ==> TreatmentOf(after, id) == TreatmentOf(before, id)
    ensures Sum(lines, NetIn(after, box))
         == Sum(lines, NetIn(before, box)) + (Counts(TreatmentOf(after, r), box) - Counts(TreatmentOf(before, r), box)) * Sum(lines, NetAt(r))
  {
    SumCombine(lines, NetIn(after, box), NetIn(before, box), NetAt(r),
               Counts(TreatmentOf(after, r), box) - Counts(TreatmentOf(before, r), box));
  }

  lemma DocsRebox(docs: seq<Option<Doc>>, w: Window, before: seq<VatRate>, after: seq<VatRate>, r: Id, box: VatKind)
    requires forall id :: id != r ==> TreatmentOf(after, id) == TreatmentOf(before, id)
    ensures Sum(docs, SalesIn(w, after, box))
         == Sum(docs, SalesIn(w, before, box)) + (Counts(TreatmentOf(after, r), box) - Counts(TreatmentOf(before, r), box)) * Sum(docs, SalesAt(w, r))
  {
    var k := Counts(TreatmentOf(after, r), box) - Counts(TreatmentOf(before, r), box);
    forall i | 0 <= i < |docs|
      ensures SalesIn(w, after, box)(docs[i]) == SalesIn(w, before, box)(docs[i]) + k * SalesAt(w, r)(docs[i])
    {
      if IsFiled(w, docs[i]) {
        LinesRebox(docs[i].value.lines, before, after, r, box);
        NegatedProduct(k, Sum(docs[i].value.lines, NetAt(r)));
      }
    }
    SumCombine(docs, SalesIn(w, after, box), SalesIn(w, before, box), SalesAt(w, r), k);
  }

  lemma NegatedProduct(k: int, n: int)
    ensures k * -n == -(k * n)
  {
  }

  lemma RatesStand(s: State, step: Step)
    requires !step.DoSaveRate?
    ensures After(s, step).rates == s.rates
  {
  }

  lemma SavingOneRate(s: State, id: Id, v: VatRate)
    requires SaveRate(s, id, v).Done?
    ensures var t := SaveRate(s, id, v).state;
            && t == s.(rates := t.rates)
            && TreatmentOf(t.rates, SavedAs(s, id)) == v.kind
            && forall r :: r != SavedAs(s, id) ==> TreatmentOf(t.rates, r) == TreatmentOf(s.rates, r)
  {
  }

  // ---- one step ----

  /** The document a step takes out of the window by voiding it. */
  function VoidedInside(s: State, step: Step, w: Window): Option<Doc> {
    if step.DoVoid? && Perform(s, step).Done? && IsFiled(w, Row(s.docs, step.id)) then Row(s.docs, step.id) else None
  }

  function VoidedTax(s: State, step: Step, w: Window): Money {
    match VoidedInside(s, step, w)
    case None => 0
    case Some(d) => Signed(d.kind, d.vat)
  }

  function VoidedSales(s: State, step: Step, w: Window, box: VatKind): Money {
    match VoidedInside(s, step, w)
    case None => 0
    case Some(d) => Signed(d.kind, Sum(d.lines, NetIn(s.rates, box)))
  }

  lemma VoidedTaxIsLineTax(s: State, step: Step, w: Window)
    requires Sound(s)
    ensures VoidedTax(s, step, w) == Voided(s, step, LineTax(w))
  {
    if VoidedInside(s, step, w).Some? {
      assert DocSound(s.accounts, s.entries, s.docs[step.id - 1].value);
    }
  }

  lemma StepMovesBox(s: State, step: Step, w: Window, box: VatKind)
    requires Sound(s) && WholeWindowLocked(s, w)
    ensures ReturnSales(After(s, step), w, box)
         == ReturnSales(s, w, box) - VoidedSales(s, step, w, box) + Reboxed(s, step, w, box)
  {
    if step.DoSaveRate? {
      if Perform(s, step).Done? {
        SavingOneRate(s, step.id, step.vatRate);
        DocsRebox(s.docs, w, s.rates, After(s, step).rates, SavedAs(s, step.id), box);
      }
    } else {
      RatesStand(s, step);
      StepMovesFigure(s, step, w, SalesIn(w, s.rates, box));
    }
  }

  /**
  Every figure of a return for a locked window, over any step: purchases and input tax stand;
  output tax loses the tax of a document voided inside the window; each box of net sales loses
  that document's net in the box, or takes or gives up the sales at a rate whose treatment was
  edited.
  */
  lemma StepMovesReturn(s: State, step: Step, w: Window)
    requires Sound(s) && WholeWindowLocked(s, w)
    ensures var t := After(s, step);
            && ReturnIn(t, w) == ReturnIn(s, w)
            && ReturnPurchases(t, w) == ReturnPurchases(s, w)
            && ReturnOut(t, w) == ReturnOut(s, w) - VoidedTax(s, step, w)
            && forall box :: ReturnSales(t, w, box)
                 == ReturnSales(s, w, box) - VoidedSales(s, step, w, box) + Reboxed(s, step, w, box)
  {
    StepKeepsPurchases(s, step, w, Reclaimed(w));
    StepKeepsPurchases(s, step, w, SpentNet(w));
    StepMovesFigure(s, step, w, LineTax(w));
    VoidedTaxIsLineTax(s, step, w);
    forall box
      ensures ReturnSales(After(s, step), w, box)
           == ReturnSales(s, w, box) - VoidedSales(s, step, w, box) + Reboxed(s, step, w, box)
    {
      StepMovesBox(s, step, w, box);
    }
  }

  ghost predicate SameReturn(s: State, t: State, w: Window) {
    && ReturnIn(t, w) == ReturnIn(s, w) && ReturnPurchases(t, w) == ReturnPurchases(s, w)
    && ReturnOut(t, w) == ReturnOut(s, w)
    && forall box :: ReturnSales(t, w, box) == ReturnSales(s, w, box)
  }

  /** A document whose removal no figure of a return shows. */
  ghost predicate Invisible(d: Doc, rates: seq<VatRate>) {
    d.vat == 0 && forall box :: Sum(d.lines, NetIn(rates, box)) == 0
  }

  lemma RateEditsMoveNoBoxWhen(s: State, step: Step, w: Window)
    requires step.DoSaveRate?
    ensures VoidedTax(s, step, w) == 0 && forall box :: VoidedSales(s, step, w, box) == 0
    ensures (forall box :: Reboxed(s, step, w, box) == 0) <==>
      (Perform(s, step).Done? ==>
         || BoxOf(step.vatRate.kind) == BoxOf(TreatmentOf(s.rates, SavedAs(s, step.id)))
         || SalesAtRate(s, w, SavedAs(s, step.id)) == 0)
  {
    if Perform(s, step).Done? {
      var after, before := step.vatRate.kind, TreatmentOf(s.rates, SavedAs(s, step.id));
      var sales := SalesAtRate(s, w, SavedAs(s, step.id));
      CarriesNothingWhen(after, before, sales);
      assert forall box :: Reboxed(s, step, w, box) == (Counts(after, box) - Counts(before, box)) * sales;
    }
  }

  lemma CarriesNothingWhen(after: VatKind, before: VatKind, sales: Money)
    ensures (forall box :: (Counts(after, box) - Counts(before, box)) * sales == 0) <==> BoxOf(after) == BoxOf(before) || sales == 0
  {
    var box := BoxOf(after);
    assert BoxOf(after) != BoxOf(before) ==> Counts(after, box) - Counts(before, box) == 1;
  }

  lemma VoidsMoveNothingWhen(s: State, step: Step, w: Window)
    requires !step.DoSaveRate?
    ensures forall box :: Reboxed(s, step, w, box) == 0
    ensures VoidedTax(s, step, w) == 0 && (forall box :: VoidedSales(s, step, w, box) == 0) <==>
      (VoidedInside(s, step, w).Some? ==> Invisible(VoidedInside(s, step, w).value, s.rates))
  {
    var v := VoidedInside(s, step, w);
    if v.Some? {
      assert forall box :: VoidedSales(s, step, w, box) == 0 <==> Sum(v.value.lines, NetIn(s.rates, box)) == 0;
    }
  }

  /**
  Exactly which steps leave a return for a locked window as it was filed: those that void no
  document inside it that carries tax or sales in any box, and move no rate that sales inside
  it were made at from one box to another.
  */
  lemma FiledReturnStandsWhen(s: State, step: Step, w: Window)
    requires Sound(s) && WholeWindowLocked(s, w)
    ensures SameReturn(s, After(s, step), w) <==>
      && (VoidedInside(s, step, w).Some? ==> Invisible(VoidedInside(s, step, w).value, s.rates))
      && (step.DoSaveRate? && Perform(s, step).Done? ==>
            || BoxOf(step.vatRate.kind) == BoxOf(TreatmentOf(s.rates, SavedAs(s, step.id)))
            || SalesAtRate(s, w, SavedAs(s, step.id)) == 0)
  {
    StepMovesReturn(s, step, w);
    if step.DoSaveRate? {
      RateEditsMoveNoBoxWhen(s, step, w);
    } else {
      VoidsMoveNothingWhen(s, step, w);
    }
  }

  // ---- whole runs ----

  function RunVoidedTax(s: State, steps: seq<Step>, w: Window): Money {
    if steps == [] then 0
    else RunVoidedTax(s, steps[..|steps| - 1], w) + VoidedTax(Run(s, steps[..|steps| - 1]), steps[|steps| - 1], w)
  }

  function RunVoidedSales(s: State, steps: seq<Step>, w: Window, box: VatKind): Money {
    if steps == [] then 0
    else RunVoidedSales(s, steps[..|steps| - 1], w, box) + VoidedSales(Run(s, steps[..|steps| - 1]), steps[|steps| - 1], w, box)
  }

  function RunReboxed(s: State, steps: seq<Step>, w: Window, box: VatKind): Money {
    if steps == [] then 0
    else RunReboxed(s, steps[..|steps| - 1], w, box) + Reboxed(Run(s, steps[..|steps| - 1]), steps[|steps| - 1], w, box)
  }

  lemma {:induction false} RunStaysSound(s: State, steps: seq<Step>)
    requires Sound(s) && AllClean(steps)
    ensures Sound(Run(s, steps))
  {
    if steps != [] {
      RunStaysSound(s, steps[..|steps| - 1]);
      StepKeepsSound(Run(s, steps[..|steps| - 1]), steps[|steps| - 1]);
    }
  }

  lemma ControlsStand(s: State, steps: seq<Step>, w: Window)
    requires Sound(s) && StaysLocked(s, steps, w)
    ensures ControlOut(Run(s, steps), w) == ControlOut(s, w) && ControlIn(Run(s, steps), w) == ControlIn(s, w)
  {
    RunKeepsJournal(s, steps);
    KeysStayPut(s.accounts, Run(s, steps).accounts, VatOutputKey);
    KeysStayPut(s.accounts, Run(s, steps).accounts, VatInputKey);
    LockedWindowStandsStill(s, steps, w, NetTo(VatOutAccount(s.accounts)));
    LockedWindowStandsStill(s, steps, w, NetTo(VatInAccount(s.accounts)));
  }

  lemma {:induction false} RunMovesFigures(s: State, steps: seq<Step>, w: Window, box: VatKind)
    requires Sound(s) && AllClean(steps) && StaysLocked(s, steps, w)
    ensures var t := Run(s, steps);
            && ReturnIn(t, w) == ReturnIn(s, w)
            && ReturnPurchases(t, w) == ReturnPurchases(s, w)
            && ReturnOut(t, w) == ReturnOut(s, w) - RunVoidedTax(s, steps, w)
            && ReturnSales(t, w, box) == ReturnSales(s, w, box) - RunVoidedSales(s, steps, w, box) + RunReboxed(s, steps, w, box)
  {
    if steps != [] {
      var rest := steps[..|steps| - 1];
      RunMovesFigures(s, rest, w, box);
      RunStaysSound(s, rest);
      StepMovesReturn(Run(s, rest), steps[|steps| - 1], w);
    }
  }

  /**
  A filed return over any run that keeps its window locked: the control accounts, the purchases
  and the input tax never move; output tax and the boxes move by exactly what was voided inside
  and what rate edits carried across.
  */
  lemma FiledReturnMoves(s: State, steps: seq<Step>, w: Window)
    requires Sound(s) && AllClean(steps) && StaysLocked(s, steps, w)
    ensures var t := Run(s, steps);
            && ControlOut(t, w) == ControlOut(s, w) && ControlIn(t, w) == ControlIn(s, w)
            && ReturnIn(t, w) == ReturnIn(s, w)
            && ReturnPurchases(t, w) == ReturnPurchases(s, w)
            && ReturnOut(t, w) == ReturnOut(s, w) - RunVoidedTax(s, steps, w)
            && forall box :: ReturnSales(t, w, box)
                 == ReturnSales(s, w, box) - RunVoidedSales(s, steps, w, box) + RunReboxed(s, steps, w, box)
  {
    ControlsStand(s, steps, w);
    RunMovesFigures(s, steps, w, Standard);
    forall box
      ensures ReturnSales(Run(s, steps), w, box)
           == ReturnSales(s, w, box) - RunVoidedSales(s, steps, w, box) + RunReboxed(s, steps, w, box)
    {
      RunMovesFigures(s, steps, w, box);
    }
  }

  lemma {:induction false} NothingVoidedNorReboxed(s: State, steps: seq<Step>, w: Window, box: VatKind)
    requires forall i :: 0 <= i < |steps| ==> !steps[i].DoVoid? && !steps[i].DoSaveRate?
    ensures RunVoidedTax(s, steps, w) == 0 && RunVoidedSales(s, steps, w, box) == 0 && RunReboxed(s, steps, w, box) == 0
  {
    if steps != [] {
      NothingVoidedNorReboxed(s, steps[..|steps| - 1], w, box);
    }
  }

  /** Without a void or a rate edit, a return for a window that stays locked is the one that was filed. */
  lemma FiledReturnStands(s: State, steps: seq<Step>, w: Window)
    requires Sound(s) && AllClean(steps) && StaysLocked(s, steps, w)
    requires forall i :: 0 <= i < |steps| ==> !steps[i].DoVoid? && !steps[i].DoSaveRate?
    ensures SameReturn(s, Run(s, steps), w)
    ensures HasMismatchNote(Run(s, steps), w) <==> HasMismatchNote(s, w)
  {
    FiledReturnMoves(s, steps, w);
    forall box
      ensures RunVoidedTax(s, steps, w) == 0 && RunVoidedSales(s, steps, w, box) == 0 && RunReboxed(s, steps, w, box) == 0
    {
      NothingVoidedNorReboxed(s, steps, w, box);
    }
    NothingVoidedNorReboxed(s, steps, w, Standard);
  }
}
