/**
The reconciliations the conservation law gives: receivables against open documents, and the two
VAT control accounts against the figures a return is filled in from.
*/
module ControlAccounts {
  import opened Options
  import opened Sums
  import opened Amounts
  import opened Ledger
  import opened Documents
  import opened Books
  import opened Journal
  import opened Statements
  import opened Soundness
  import opened Reconciliation

  /** No source row names the account except through the leg its kind of row always posts. */
  ghost predicate OnlySystemUse(s: State, a: Id) {
    && (forall i, j :: 0 <= i < |s.docs| && s.docs[i].Some? && s.docs[i].value.Live() && 0 <= j < |s.docs[i].value.lines| ==>
          s.docs[i].value.lines[j].income != a)
    && (forall i :: 0 <= i < |s.payments| && s.payments[i].Some? ==> s.payments[i].value.deposit != a)
    && (forall i :: 0 <= i < |s.expenses| && s.expenses[i].Some? ==>
          s.expenses[i].value.account != a && s.expenses[i].value.paidFrom != a)
    && forall i :: 0 <= i < |s.fundings| && s.fundings[i].Some? ==>
         s.fundings[i].value.cash != a && s.fundings[i].value.owner != a
  }

  lemma DocMoves(s: State, d: Doc, a: Id)
    requires TotalsAgree(d)
    requires forall j :: 0 <= j < |d.lines| ==> d.lines[j].income != a
    ensures NetOn(LinesOfDoc(s.accounts, d), a)
         == Signed(d.kind, (if a == ArAccount(s.accounts) then d.total else 0) - if a == VatOutAccount(s.accounts) then d.vat else 0)
  {
    PostingsBalance(d, ArAccount(s.accounts), VatOutAccount(s.accounts), a);
    SumNone(d.lines, IncomeOf(a));
  }

  lemma ExpenseMoves(x: ExpenseRow, vatIn: Id, a: Id)
    requires x.account != a && x.paidFrom != a
    ensures NetOn(ExpenseLines(x, vatIn), a) == if a == vatIn && x.reclaimable then x.vat else 0
  {
    if x.vat != 0 && x.reclaimable {
      var l, m, n := Line(x.account, x.net, 0), Line(vatIn, x.vat, 0), Line(x.paidFrom, 0, x.total);
      assert ExpenseLines(x, vatIn) == [l, m, n];
      ThreeLines(l, m, n, NetTo(a));
    } else {
      assert ExpenseLines(x, vatIn) == [Line(x.account, x.total, 0), Line(x.paidFrom, 0, x.total)];
      TwoLinesBalance(x.account, x.paidFrom, x.total);
    }
  }

  lemma FundingMoves(f: Funding, a: Id)
    requires f.cash != a && f.owner != a
    ensures NetOn(FundingLines(f), a) == 0
  {
    TwoLinesBalance(f.cash, f.owner, f.amount);
    TwoLinesBalance(f.owner, f.cash, f.amount);
  }

  lemma PaymentMoves(p: Payment, ar: Id, a: Id)
    requires p.deposit != a
    ensures NetOn(PaymentLines(p, ar), a) == if a == ar then -p.amount else 0
  {
    TwoLinesBalance(p.deposit, ar, p.amount);
  }

  // ---- sources of an account only the system uses ----

  function DocAmount(w: Window, total: int, vat: int): Option<Doc> -> int {
    (row: Option<Doc>) =>
      if row.Some? && row.value.Live() && w.Holds(row.value.issueDate)
      then Signed(row.value.kind, total * row.value.total - vat * row.value.vat) else 0
  }

  function Received(w: Window): Option<Payment> -> int {
    (row: Option<Payment>) => if row.Some? && w.Holds(row.value.paidOn) then row.value.amount else 0
  }

  function Reclaimed(w: Window): Option<ExpenseRow> -> int {
    (row: Option<ExpenseRow>) =>
      if row.Some? && row.value.reclaimable && w.Holds(row.value.spentOn) then row.value.vat else 0
  }

  lemma DocSourcesOf(s: State, w: Window, a: Id, total: int, vat: int)
    requires Sound(s) && OnlySystemUse(s, a)
    requires total == (if a == ArAccount(s.accounts) then 1 else 0) && vat == if a == VatOutAccount(s.accounts) then 1 else 0
    ensures DocSources(s, w, a) == Sum(s.docs, DocAmount(w, total, vat))
  {
    forall i | 0 <= i < |s.docs|
      ensures FromDoc(w, a, ArAccount(s.accounts), VatOutAccount(s.accounts))(s.docs[i]) == DocAmount(w, total, vat)(s.docs[i])
    {
      if s.docs[i].Some? && s.docs[i].value.Live() {
        assert DocSound(s.accounts, s.entries, s.docs[i].value);
        DocMoves(s, s.docs[i].value, a);
      }
    }
    SumSame(s.docs, FromDoc(w, a, ArAccount(s.accounts), VatOutAccount(s.accounts)), DocAmount(w, total, vat));
  }

  function Idle<T>(): Option<T> -> int {
    (row: Option<T>) => 0
  }

  lemma PaymentSourcesOf(s: State, w: Window, a: Id)
    requires OnlySystemUse(s, a)
    ensures PaymentSources(s, w, a) == if a == ArAccount(s.accounts) then -Sum(s.payments, Received(w)) else 0
  {
    var ar := ArAccount(s.accounts);
    var k := if a == ar then -1 else 0;
    forall i | 0 <= i < |s.payments|
      ensures FromPaid(w, a, ar)(s.payments[i]) == Idle<Payment>()(s.payments[i]) + k * Received(w)(s.payments[i])
    {
      if s.payments[i].Some? {
        PaymentMoves(s.payments[i].value, ar, a);
      }
    }
    SumCombine(s.payments, FromPaid(w, a, ar), Idle<Payment>(), Received(w), k);
    SumNone(s.payments, Idle<Payment>());
  }

  lemma ExpenseSourcesOf(s: State, w: Window, a: Id)
    requires OnlySystemUse(s, a)
    ensures ExpenseSources(s, w, a) == if a == VatInAccount(s.accounts) then Sum(s.expenses, Reclaimed(w)) else 0
  {
    var vatIn := VatInAccount(s.accounts);
    var k := if a == vatIn then 1 else 0;
    forall i | 0 <= i < |s.expenses|
      ensures FromSpent(w, a, vatIn)(s.expenses[i]) == Idle<ExpenseRow>()(s.expenses[i]) + k * Reclaimed(w)(s.expenses[i])
    {
      if s.expenses[i].Some? {
        ExpenseMoves(s.expenses[i].value, vatIn, a);
      }
    }
    SumCombine(s.expenses, FromSpent(w, a, vatIn), Idle<ExpenseRow>(), Reclaimed(w), k);
    SumNone(s.expenses, Idle<ExpenseRow>());
  }

  lemma FundingSourcesOf(s: State, w: Window, a: Id)
    requires OnlySystemUse(s, a)
    ensures FundingSources(s, w, a) == 0
  {
    forall i | 0 <= i < |s.fundings|
      ensures FromFunded(w, a)(s.fundings[i]) == 0
    {
      if s.fundings[i].Some? {
        FundingMoves(s.fundings[i].value, a);
      }
    }
    SumNone(s.fundings, FromFunded(w, a));
  }

  // ---- receivables ----

  /** What is still owed on a live document; a credit note counts the other way. */
  function StillOwed(): Option<Doc> -> int {
    (row: Option<Doc>) => if row.Some? && row.value.Live() then Signed(row.value.kind, row.value.total) - row.value.paid else 0
  }

  function PaidOn(): Option<Doc> -> int {
    (row: Option<Doc>) => if row.Some? then row.value.paid else 0
  }

  function PaidAgainst(payments: seq<Option<Payment>>): int -> int {
    id => Sum(payments, PaidFor(id))
  }

  function OneAmount(row: Option<Payment>): int -> int {
    id => if row.Some? && row.value.invoice == id then row.value.amount else 0
  }

  lemma {:induction false} SumAsIds<T>(s: seq<T>, f: T -> int, g: int -> int)
    requires forall i :: 0 <= i < |s| ==> f(s[i]) == g(i + 1)
    ensures Sum(s, f) == SumIds(|s|, g)
  {
    if s != [] {
      SumAsIds(s[..|s| - 1], f, g);
    }
  }

  /** Receipts summed document by document are the receipts summed row by row. */
  lemma {:induction false} ReceiptsByDocument(payments: seq<Option<Payment>>, n: nat)
    requires forall i :: 0 <= i < |payments| && payments[i].Some? ==> 1 <= payments[i].value.invoice <= n
    ensures SumIds(n, PaidAgainst(payments)) == Sum(payments, Received(AllTime))
  {
    if payments == [] {
      SumIdsNone(n, PaidAgainst(payments));
    } else {
      var rest, last := payments[..|payments| - 1], payments[|payments| - 1];
      ReceiptsByDocument(rest, n);
      SumIdsCombine(n, PaidAgainst(payments), PaidAgainst(rest), OneAmount(last), 1);
      if last.Some? {
        SumIdsOnly(n, OneAmount(last), last.value.invoice);
      } else {
        SumIdsNone(n, OneAmount(last));
      }
    }
  }

  lemma PaidTotalsAreReceipts(s: State)
    requires Settled(s)
    ensures Sum(s.docs, PaidOn()) == Sum(s.payments, Received(AllTime))
  {
    forall i | 0 <= i < |s.docs|
      ensures PaidOn()(s.docs[i]) == PaidAgainst(s.payments)(i + 1)
    {
      if s.docs[i].Some? {
        assert PaidSound(s.docs[i].value, Sum(s.payments, PaidFor(i + 1)));
      } else {
        PaymentsToNothing(s.payments, i + 1);
      }
    }
    SumAsIds(s.docs, PaidOn(), PaidAgainst(s.payments));
    ReceiptsByDocument(s.payments, |s.docs|);
  }

  /**
  Receivables reconcile. After any run from fresh books in which nothing but invoicing and
  payment used the receivables account, its balance is what is still owed on the live documents.
  */
  lemma ReceivablesReconcile(s: State, steps: seq<Step>)
    requires Fresh(s) && AllClean(steps)
    requires FindKey(Run(s, steps).accounts, ArKey).Some?
    requires OnlySystemUse(Run(s, steps), ArAccount(Run(s, steps).accounts))
    requires RunKeepsOff(s, steps, ArAccount(Run(s, steps).accounts))
    ensures var t := Run(s, steps);
            Net(t.entries, AllTime, ArAccount(t.accounts)) == Sum(t.docs, StillOwed())
  {
    var t := Run(s, steps);
    var ar := ArAccount(t.accounts);
    ReachableIsSound(s, steps);
    LedgerIsItsSources(s, steps, AllTime, ar);
    NoDriftOverall(s, steps, ar);
    KeysAreDistinct(t.accounts, ArKey, VatOutputKey);
    KeysAreDistinct(t.accounts, ArKey, VatInputKey);
    DocSourcesOf(t, AllTime, ar, 1, 0);
    PaymentSourcesOf(t, AllTime, ar);
    ExpenseSourcesOf(t, AllTime, ar);
    FundingSourcesOf(t, AllTime, ar);
    PaidTotalsAreReceipts(t);
    OwedIsBilledLessPaid(t);
  }

  lemma OwedIsBilledLessPaid(s: State)
    requires Settled(s)
    ensures Sum(s.docs, StillOwed()) == Sum(s.docs, DocAmount(AllTime, 1, 0)) - Sum(s.docs, PaidOn())
  {
    forall i | 0 <= i < |s.docs|
      ensures StillOwed()(s.docs[i]) == DocAmount(AllTime, 1, 0)(s.docs[i]) + -1 * PaidOn()(s.docs[i])
    {
      if s.docs[i].Some? {
        assert PaidSound(s.docs[i].value, Sum(s.payments, PaidFor(i + 1)));
      }
    }
    SumCombine(s.docs, StillOwed(), DocAmount(AllTime, 1, 0), PaidOn(), -1);
  }

  // ---- VAT ----

  /** `VATControlTotals`: credits less debits on the output account, debits less credits on the input one. */
  function ControlOut(s: State, w: Window): Money {
    match FindKey(s.accounts, VatOutputKey)
    case None => 0
    case Some(a) => -Net(s.entries, w, a)
  }

  function ControlIn(s: State, w: Window): Money {
    match FindKey(s.accounts, VatInputKey)
    case None => 0
    case Some(a) => Net(s.entries, w, a)
  }

  function LineTax(w: Window): Option<Doc> -> int {
    (row: Option<Doc>) =>
      if row.Some? && row.value.Live() && w.Holds(row.value.issueDate)
      then Signed(row.value.kind, Sum(row.value.lines, VatAmount())) else 0
  }

  /** `VATTotals`: tax line by line over live documents, credit notes negated, and reclaimable tax on expenses. */
  function ReturnOut(s: State, w: Window): Money {
    Sum(s.docs, LineTax(w))
  }

  function ReturnIn(s: State, w: Window): Money {
    Sum(s.expenses, Reclaimed(w))
  }

  function SpentNet(w: Window): Option<ExpenseRow> -> int {
    (row: Option<ExpenseRow>) => if row.Some? && w.Holds(row.value.spentOn) then row.value.net else 0
  }

  /** Purchases are returned net, whether or not their tax is reclaimable. */
  function ReturnPurchases(s: State, w: Window): Money {
    Sum(s.expenses, SpentNet(w))
  }

  lemma LineTaxIsHeaderTax(s: State, w: Window)
    requires Sound(s)
    ensures ReturnOut(s, w) == -Sum(s.docs, DocAmount(w, 0, 1))
  {
    forall i | 0 <= i < |s.docs|
      ensures LineTax(w)(s.docs[i]) == Idle<Doc>()(s.docs[i]) + -1 * DocAmount(w, 0, 1)(s.docs[i])
    {
      if s.docs[i].Some? {
        assert DocSound(s.accounts, s.entries, s.docs[i].value);
      }
    }
    SumCombine(s.docs, LineTax(w), Idle<Doc>(), DocAmount(w, 0, 1), -1);
    SumNone(s.docs, Idle<Doc>());
  }

  /**
  The return's output tax and the control account differ, over any window, by exactly the drift
  of the run on that account.
  */
  lemma OutputTaxReconciles(s: State, steps: seq<Step>, w: Window)
    requires Fresh(s) && AllClean(steps)
    requires FindKey(Run(s, steps).accounts, VatOutputKey).Some?
    requires OnlySystemUse(Run(s, steps), VatOutAccount(Run(s, steps).accounts))
    ensures var t := Run(s, steps);
            ReturnOut(t, w) - ControlOut(t, w) == RunDrift(s, steps, w, VatOutAccount(t.accounts))
  {
    var t := Run(s, steps);
    var a := VatOutAccount(t.accounts);
    ReachableIsSound(s, steps);
    LedgerIsItsSources(s, steps, w, a);
    KeysAreDistinct(t.accounts, VatOutputKey, ArKey);
    KeysAreDistinct(t.accounts, VatOutputKey, VatInputKey);
    DocSourcesOf(t, w, a, 0, 1);
    PaymentSourcesOf(t, w, a);
    ExpenseSourcesOf(t, w, a);
    FundingSourcesOf(t, w, a);
    LineTaxIsHeaderTax(t, w);
  }

  lemma NothingFromDocs(docs: seq<Option<Doc>>, w: Window)
    ensures Sum(docs, DocAmount(w, 0, 0)) == 0
  {
    SumNone(docs, DocAmount(w, 0, 0));
  }

  lemma InputTaxReconciles(s: State, steps: seq<Step>, w: Window)
    requires Fresh(s) && AllClean(steps)
    requires FindKey(Run(s, steps).accounts, VatInputKey).Some?
    requires OnlySystemUse(Run(s, steps), VatInAccount(Run(s, steps).accounts))
    ensures var t := Run(s, steps);
            ControlIn(t, w) - ReturnIn(t, w) == RunDrift(s, steps, w, VatInAccount(t.accounts))
  {
    var t := Run(s, steps);
    var a := VatInAccount(t.accounts);
    ReachableIsSound(s, steps);
    LedgerIsItsSources(s, steps, w, a);
    KeysAreDistinct(t.accounts, VatInputKey, ArKey);
    KeysAreDistinct(t.accounts, VatInputKey, VatOutputKey);
    DocSourcesOf(t, w, a, 0, 0);
    NothingFromDocs(t.docs, w);
    PaymentSourcesOf(t, w, a);
    ExpenseSourcesOf(t, w, a);
    FundingSourcesOf(t, w, a);
  }

  /** The return carries its mismatch note when either figure differs from its control account. */
  predicate HasMismatchNote(s: State, w: Window) {
    ControlOut(s, w) != ReturnOut(s, w) || ControlIn(s, w) != ReturnIn(s, w)
  }

  /** A run with no hand posting and nothing voided or deleted. */
  predicate OnlyForward(steps: seq<Step>) {
    forall i :: 0 <= i < |steps| ==> !ByHand(steps[i]) && !Removes(steps[i])
  }

  lemma {:induction false} ForwardRunsDoNotDrift(s: State, steps: seq<Step>, w: Window, a: Id)
    requires OnlyForward(steps)
    ensures RunDrift(s, steps, w, a) == 0
  {
    if steps != [] {
      ForwardRunsDoNotDrift(s, steps[..|steps| - 1], w, a);
    }
  }

  lemma NoteIsDrift(s: State, steps: seq<Step>, w: Window)
    requires Fresh(s) && AllClean(steps)
    requires var t := Run(s, steps);
             && FindKey(t.accounts, VatOutputKey).Some? && OnlySystemUse(t, VatOutAccount(t.accounts))
             && FindKey(t.accounts, VatInputKey).Some? && OnlySystemUse(t, VatInAccount(t.accounts))
    ensures var t := Run(s, steps);
            HasMismatchNote(t, w) <==>
              RunDrift(s, steps, w, VatOutAccount(t.accounts)) != 0 || RunDrift(s, steps, w, VatInAccount(t.accounts)) != 0
  {
    OutputTaxReconciles(s, steps, w);
    InputTaxReconciles(s, steps, w);
  }

  /** When the two control accounts are used by the system alone, the note means drift and nothing else. */
  lemma NoteMeansDrift(s: State, steps: seq<Step>, w: Window)
    requires Fresh(s) && AllClean(steps)
    requires var t := Run(s, steps);
             && FindKey(t.accounts, VatOutputKey).Some? && OnlySystemUse(t, VatOutAccount(t.accounts))
             && FindKey(t.accounts, VatInputKey).Some? && OnlySystemUse(t, VatInAccount(t.accounts))
    ensures var t := Run(s, steps);
            && (HasMismatchNote(t, w) <==>
                  RunDrift(s, steps, w, VatOutAccount(t.accounts)) != 0 || RunDrift(s, steps, w, VatInAccount(t.accounts)) != 0)
            && (OnlyForward(steps) ==> !HasMismatchNote(t, w))
            && (RunKeepsOff(s, steps, VatOutAccount(t.accounts)) && RunKeepsOff(s, steps, VatInAccount(t.accounts)) ==>
                  !HasMismatchNote(t, AllTime))
  {
    var t := Run(s, steps);
    var vatOut, vatIn := VatOutAccount(t.accounts), VatInAccount(t.accounts);
    NoteIsDrift(s, steps, w);
    NoteIsDrift(s, steps, AllTime);
    if OnlyForward(steps) {
      ForwardRunsDoNotDrift(s, steps, w, vatOut);
      ForwardRunsDoNotDrift(s, steps, w, vatIn);
    }
    if RunKeepsOff(s, steps, vatOut) && RunKeepsOff(s, steps, vatIn) {
      NoDriftOverall(s, steps, vatOut);
      NoDriftOverall(s, steps, vatIn);
    }
  }

  // ---- sales by treatment ----

  /** The treatment a line is returned under: that of its rate, standard when it has none. */
  function TreatmentOf(rates: seq<VatRate>, rate: Id): VatKind {
    if HasRate(rates, rate) then rates[rate - 1].kind else Standard
  }

  /** Zero, exempt and reverse-charge sales have boxes of their own; everything else is the standard one. */
  function BoxOf(kind: VatKind): VatKind {
    if kind == Zero || kind == Exempt || kind == ReverseCharge then kind else Standard
  }

  function NetIn(rates: seq<VatRate>, box: VatKind): DocLine -> int {
    (l: DocLine) => if BoxOf(TreatmentOf(rates, l.rate)) == box then l.net else 0
  }

  function SalesIn(w: Window, rates: seq<VatRate>, box: VatKind): Option<Doc> -> int {
    (row: Option<Doc>) =>
      if row.Some? && row.value.Live() && w.Holds(row.value.issueDate)
      then Signed(row.value.kind, Sum(row.value.lines, NetIn(rates, box))) else 0
  }

  function ReturnSales(s: State, w: Window, box: VatKind): Money {
    Sum(s.docs, SalesIn(w, s.rates, box))
  }

  function SignedSubtotal(w: Window): Option<Doc> -> int {
    (row: Option<Doc>) =>
      if row.Some? && row.value.Live() && w.Holds(row.value.issueDate) then Signed(row.value.kind, row.value.subtotal) else 0
  }

  lemma {:induction false} BoxesSplitLines(lines: seq<DocLine>, rates: seq<VatRate>)
    ensures Sum(lines, NetIn(rates, Standard)) + Sum(lines, NetIn(rates, Zero)) + Sum(lines, NetIn(rates, Exempt))
            + Sum(lines, NetIn(rates, ReverseCharge)) == Sum(lines, NetAmount())
  {
    if lines != [] {
      BoxesSplitLines(lines[..|lines| - 1], rates);
    }
  }

  lemma {:induction false} BoxesSplitDocs(docs: seq<Option<Doc>>, w: Window, rates: seq<VatRate>)
    requires forall i :: 0 <= i < |docs| && docs[i].Some? ==> TotalsAgree(docs[i].value)
    ensures Sum(docs, SalesIn(w, rates, Standard)) + Sum(docs, SalesIn(w, rates, Zero)) + Sum(docs, SalesIn(w, rates, Exempt))
            + Sum(docs, SalesIn(w, rates, ReverseCharge)) == Sum(docs, SignedSubtotal(w))
  {
    if docs != [] {
      BoxesSplitDocs(docs[..|docs| - 1], w, rates);
      if docs[|docs| - 1].Some? {
        BoxesSplitLines(docs[|docs| - 1].value.lines, rates);
      }
    }
  }

  /** However the rate table is edited, the four boxes of a return come to the net sales of its documents. */
  lemma BoxesAddUp(s: State, w: Window)
    requires Sound(s)
    ensures ReturnSales(s, w, Standard) + ReturnSales(s, w, Zero) + ReturnSales(s, w, Exempt) + ReturnSales(s, w, ReverseCharge)
         == Sum(s.docs, SignedSubtotal(w))
  {
    forall i | 0 <= i < |s.docs| && s.docs[i].Some?
      ensures TotalsAgree(s.docs[i].value)
    {
      assert DocSound(s.accounts, s.entries, s.docs[i].value);
    }
    BoxesSplitDocs(s.docs, w, s.rates);
  }
}
