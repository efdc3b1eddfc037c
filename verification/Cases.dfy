/**
Concrete books in which the code does what a reader of its comments would not expect: one
invoice, issued on day 1, and what can happen to it on day 2.
*/
module Cases {
  import opened Options
  import opened Sums
  import opened Text
  import opened Amounts
  import opened Ledger
  import opened Documents
  import opened Books
  import opened Journal
  import opened Statements
  import opened Soundness
  import opened Reconciliation
  import opened ControlAccounts
  import opened FiledReturns
  import opened Removals
  import opened Drafts
  import opened Housekeeping
  import opened Crediting

  // ---- a reverse-charged invoice, its day locked ----

  const DayOne := Window(Some(1), Some(1))

  function Chart(salesArchived: bool): seq<Account> {
    [Account("1210", "Receivables", Asset, ArKey, false), Account("4000", "Sales", Income, SalesKey, salesArchived)]
  }

  function BilledLines(net: Money): seq<Line> {
    if net == 0 then [] else [Line(1, net, 0), Line(2, 0, net)]
  }

  function BilledDoc(net: Money): Doc {
    Doc(Invoice, "INV-0001", 1, 0, Issued, 1, 15, 14, net, 0, net, 0, true, "DE1", 0, 1,
        [DocLine("work", 1000, net, net, 1, 0, 0, 2, 0)])
  }

  function Billed(net: Money): State {
    State(2, Chart(false), [Entry(1, FromInvoice, 1, 0, BilledLines(net))], [Period(1, 1, true)],
          [VatRate(0, ReverseCharge, false)], 14, 0, 2, 1,
          [Some(BilledDoc(net))], [], [], [], {1}, [])
  }

  lemma KeysOfChart(archived: bool)
    ensures FindKey(Chart(archived), ArKey) == Some(1) && FindKey(Chart(archived), SalesKey) == Some(2)
    ensures FindKey(Chart(archived), VatOutputKey) == None
  {
    var chart := Chart(archived);
    assert chart[..1] == [chart[0]] && chart[..1][..0] == [];
  }

  lemma OneLine(l: DocLine, f: DocLine -> int)
    ensures Sum([l], f) == f(l)
  {
    assert [l] == [] + [l];
    SumSnoc([], l, f);
  }

  lemma PostedLines(net: Money)
    requires net >= 0
    ensures LinesOfDoc(Chart(false), BilledDoc(net)) == BilledLines(net)
  {
    KeysOfChart(false);
    var d := BilledDoc(net);
    var l := d.lines[0];
    assert d.lines[..0] == [];
    assert IncomeOrder(d.lines) == [2];
    OneLine(l, IncomeOf(2));
    var order: seq<Id> := [2];
    assert order[..0] == [];
    assert IncomePostings(order, d.lines, Invoice) == [Posting(2, net, false)];
    var a, b := Posting(1, net, true), Posting(2, net, false);
    assert Postings(d, 1, 0) == [a, b];
    assert [a, b][..1] == [a] && [a, b][..1][..0] == [];
    assert Nonzero([a]) == if net == 0 then [] else [a];
  }

  lemma BilledJournal(net: Money)
    requires net >= 0
    ensures GoodJournal(Chart(false), [Entry(1, FromInvoice, 1, 0, BilledLines(net))])
  {
    TwoLinesBalance(1, 2, net);
  }

  lemma BilledDocSound(net: Money)
    requires net >= 0
    ensures DocSound(Chart(false), [Entry(1, FromInvoice, 1, 0, BilledLines(net))], BilledDoc(net))
  {
    KeysOfChart(false);
    PostedLines(net);
    OneLine(BilledDoc(net).lines[0], NetAmount());
    OneLine(BilledDoc(net).lines[0], VatAmount());
  }

  lemma BilledIsSound(net: Money)
    requires net >= 0
    ensures Sound(Billed(net)) && WholeWindowLocked(Billed(net), DayOne) && !Locked(Billed(net).periods, 2)
  {
    var s := Billed(net);
    BilledJournal(net);
    BilledDocSound(net);
    var none: seq<Option<Payment>> := [];
    assert PaidSound(BilledDoc(net), Sum(none, PaidFor(1)));
    DayOneIsLocked(s.periods);
  }

  lemma DayOneIsLocked(periods: seq<Period>)
    requires periods == [Period(1, 1, true)]
    ensures !Locked(periods, 2) && forall d :: DayOne.Holds(d) ==> Locked(periods, d)
  {
    assert periods[0].locked;
  }

  /** The invoice can be voided for as long as it posted something to accounts that are not archived. */
  lemma WhenBilledIsVoided(net: Money)
    requires net >= 0
    ensures VoidDoc(Billed(net), 1).Done? <==> net > 0
  {
    BilledIsSound(net);
    PostedLines(net);
    WhenVoidSucceeds(Billed(net), 1);
  }

  lemma OneDoc(row: Option<Doc>, f: Option<Doc> -> int)
    ensures Sum([row], f) == f(row)
  {
    assert [row] == [] + [row];
    SumSnoc([], row, f);
  }

  lemma BoxOfBilled(net: Money, box: VatKind)
    ensures ReturnSales(Billed(net), DayOne, box) == if box == ReverseCharge then net else 0
  {
    var s := Billed(net);
    OneLine(BilledDoc(net).lines[0], NetIn(s.rates, box));
    OneDoc(s.docs[0], SalesIn(DayOne, s.rates, box));
  }

  /**
  A document without tax still shows on a return: voiding it on day 2 takes 100 out of the
  reverse-charge box of the locked day 1.
  */
  lemma VoidMovesABox()
    ensures Sound(Billed(100)) && WholeWindowLocked(Billed(100), DayOne) && VoidDoc(Billed(100), 1).Done?
    ensures BilledDoc(100).vat == 0
    ensures ReturnSales(Billed(100), DayOne, ReverseCharge) == 100
    ensures ReturnSales(After(Billed(100), DoVoid(1)), DayOne, ReverseCharge) == 0
  {
    BilledIsSound(100);
    WhenBilledIsVoided(100);
    BoxOfBilled(100, ReverseCharge);
    VoidedFigures(Billed(100), DoVoid(1));
    StepMovesBox(Billed(100), DoVoid(1), DayOne, ReverseCharge);
  }

  /** The output tax of the locked day stands all the same. */
  lemma VoidLeavesOutputTax()
    ensures ReturnOut(After(Billed(100), DoVoid(1)), DayOne) == ReturnOut(Billed(100), DayOne)
  {
    BilledIsSound(100);
    WhenBilledIsVoided(100);
    VoidedFigures(Billed(100), DoVoid(1));
    StepMovesReturn(Billed(100), DoVoid(1), DayOne);
  }

  lemma VoidedFigures(s: State, step: Step)
    requires s == Billed(100) && step == DoVoid(1) && VoidDoc(s, 1).Done?
    ensures VoidedTax(s, step, DayOne) == 0 && VoidedSales(s, step, DayOne, ReverseCharge) == 100
    ensures Reboxed(s, step, DayOne, ReverseCharge) == 0
  {
    OneLine(BilledDoc(100).lines[0], NetIn(s.rates, ReverseCharge));
    assert VoidedInside(s, step, DayOne) == Some(BilledDoc(100));
  }

  /** Relabelling a rate in use moves the sales of a locked day to another box, with nothing voided. */
  lemma RateEditMovesABox()
    ensures var s, t := Billed(100), After(Billed(100), DoSaveRate(1, VatRate(0, Zero, false)));
            && Sound(s) && WholeWindowLocked(s, DayOne) && SaveRate(s, 1, VatRate(0, Zero, false)).Done?
            && ReturnSales(s, DayOne, ReverseCharge) == 100 && ReturnSales(t, DayOne, ReverseCharge) == 0
            && ReturnSales(s, DayOne, Zero) == 0 && ReturnSales(t, DayOne, Zero) == 100
  {
    BilledIsSound(100);
    RelabelledBox(Billed(100), ReverseCharge);
    RelabelledBox(Billed(100), Zero);
  }

  lemma RelabelledBox(s: State, box: VatKind)
    requires s == Billed(100)
    ensures var t := After(s, DoSaveRate(1, VatRate(0, Zero, false)));
            && ReturnSales(s, DayOne, box) == (if box == ReverseCharge then 100 else 0)
            && ReturnSales(t, DayOne, box) == if box == Zero then 100 else 0
  {
    BilledIsSound(100);
    BoxOfBilled(100, box);
    SalesAtBilledRate(100);
    StepMovesBox(s, DoSaveRate(1, VatRate(0, Zero, false)), DayOne, box);
  }

  lemma SalesAtBilledRate(net: Money)
    ensures SalesAtRate(Billed(net), DayOne, 1) == net
  {
    OneLine(BilledDoc(net).lines[0], NetAt(1));
    OneDoc(Some(BilledDoc(net)), SalesAt(DayOne, 1));
  }

  /** A document worth nothing posted no line, so it can never be voided. */
  lemma WorthlessCannotBeVoided()
    ensures Sound(Billed(0)) && BilledDoc(0).Live() && BilledDoc(0).paid == 0 && !Locked(Billed(0).periods, 2)
    ensures VoidDoc(Billed(0), 1).Refused?
  {
    BilledIsSound(0);
    WhenBilledIsVoided(0);
  }

  // ---- a system account archived ----

  const ArchiveSales := DoUpdateAccount(2, Account("4000", "Sales", Income, NoKey, true))

  lemma SalesIsArchived()
    ensures UpdateAccount(Billed(100), 2, ArchiveSales.account) == Done(Billed(100).(accounts := Chart(true)), 2)
  {
    assert TrimSpace("4000") == "4000" && TrimSpace("Sales") == "Sales";
    assert Chart(false)[1 := Chart(true)[1]] == Chart(true);
  }

  /**
  Editing an account archives it even when it is a system account; from then on no document that
  posted to it can be voided.
  */
  lemma ArchivedAccountBlocksVoid()
    ensures Sound(Billed(100)) && VoidDoc(Billed(100), 1).Done?
    ensures ArchiveAccount(Billed(100), 2, true) == Refused(Invalid)
    ensures After(Billed(100), ArchiveSales).accounts == Chart(true)
    ensures VoidDoc(After(Billed(100), ArchiveSales), 1).Refused?
  {
    var t := Billed(100).(accounts := Chart(true));
    BilledIsSound(100);
    WhenBilledIsVoided(100);
    SalesIsArchived();
    StepKeepsSound(Billed(100), ArchiveSales);
    KeysOfChart(true);
    KeysOfChart(false);
    PostedLines(100);
    WhenVoidSucceeds(t, 1);
    assert BilledLines(100)[1].account == 2 && t.accounts[1].archived;
  }

  // ---- a taxed invoice, its rate edited ----

  function TaxedChart(): seq<Account> {
    Chart(false) + [Account("2100", "VAT on sales", Liability, VatOutputKey, false)]
  }

  /** 100 net at 21 per cent. */
  const TaxedDoc := Doc(Invoice, "INV-0001", 1, 0, Issued, 1, 15, 14, 100, 21, 121, 0, false, "", 0, 1,
                        [DocLine("work", 1000, 100, 100, 1, 2100, 21, 2, 0)])

  const TaxedLines := [Line(1, 121, 0), Line(2, 0, 100), Line(3, 0, 21)]

  /** The invoice, and its rate as it was edited since. */
  function Taxed(bp: int): State {
    State(2, TaxedChart(), [Entry(1, FromInvoice, 1, 0, TaxedLines)], [],
          [VatRate(bp, Standard, false)], 14, 0, 2, 1,
          [Some(TaxedDoc)], [], [], [], {1}, [])
  }

  lemma KeysOfTaxedChart()
    ensures FindKey(TaxedChart(), ArKey) == Some(1) && FindKey(TaxedChart(), SalesKey) == Some(2)
    ensures FindKey(TaxedChart(), VatOutputKey) == Some(3)
  {
    assert TaxedChart()[..2] == Chart(false);
    KeysOfChart(false);
  }

  lemma TaxedPostings()
    ensures LinesOfDoc(TaxedChart(), TaxedDoc) == TaxedLines
  {
    KeysOfTaxedChart();
    OneIncomePosting(TaxedDoc.lines);
    assert Postings(TaxedDoc, 1, 3) == TaxedLines;
    NothingToDrop(TaxedLines);
  }

  lemma OneIncomePosting(lines: seq<DocLine>)
    requires lines == TaxedDoc.lines
    ensures IncomePostings(IncomeOrder(lines), lines, Invoice) == [Line(2, 0, 100)]
  {
    assert lines[..0] == [];
    OneLine(lines[0], IncomeOf(2));
    var order: seq<Id> := [2];
    assert order[..0] == [] && IncomeOrder(lines) == order;
  }

  lemma {:induction false} NothingToDrop(lines: seq<Line>)
    requires forall i :: 0 <= i < |lines| ==> lines[i].debit != 0 || lines[i].credit != 0
    ensures Nonzero(lines) == lines
  {
    if lines != [] {
      NothingToDrop(lines[..|lines| - 1]);
      assert lines == lines[..|lines| - 1] + [lines[|lines| - 1]];
    }
  }

  lemma TaxedJournal()
    ensures GoodJournal(TaxedChart(), [Entry(1, FromInvoice, 1, 0, TaxedLines)])
  {
    ThreeLines(TaxedLines[0], TaxedLines[1], TaxedLines[2], AnyDebit());
    ThreeLines(TaxedLines[0], TaxedLines[1], TaxedLines[2], AnyCredit());
  }

  lemma TaxedDocSound()
    ensures DocSound(TaxedChart(), [Entry(1, FromInvoice, 1, 0, TaxedLines)], TaxedDoc)
  {
    KeysOfTaxedChart();
    TaxedPostings();
    OneLine(TaxedDoc.lines[0], NetAmount());
    OneLine(TaxedDoc.lines[0], VatAmount());
  }

  lemma TaxedIsSound(bp: int)
    ensures Sound(Taxed(bp))
  {
    TaxedJournal();
    TaxedDocSound();
    var none: seq<Option<Payment>> := [];
    assert PaidSound(TaxedDoc, Sum(none, PaidFor(1)));
  }

  lemma TaxedIsRated(s: State, bp: int)
    requires s == Taxed(bp)
    ensures RatedDocs(s.rates, s.docs)
  {
    assert Extend(1000, 100) == 100;
  }

  /** What pricing the invoice's line again comes to. */
  lemma TaxedPricing(s: State, bp: int)
    requires s == Taxed(bp)
    ensures PricingFor(s, false) == Some(Pricing(s.accounts, s.rates, 0, 2, None))
    ensures CanBePriced(PricingFor(s, false).value, TaxedDoc.lines[0].(timeEntry := 0))
    ensures Sum(TaxedDoc.lines, TaxNow(PricingFor(s, false).value)) == VAT(100, bp)
  {
    KeysOfTaxedChart();
    assert TrimSpace("work") == "work";
    OneLine(TaxedDoc.lines[0], TaxNow(PricingFor(s, false).value));
  }

  lemma TaxedCredit(s: State, bp: int)
    requires s == Taxed(bp)
    ensures RaiseCreditNote(s, 1, []).Done? && RaiseCreditNote(s, 1, []).id == 2
  {
    TaxedPricing(s, bp);
    KeysOfTaxedChart();
    DraftIsAcceptedWhen(s, CreditInput(s, 1, TaxedDoc, []));
  }

  /**
  The rate is edited from 21 to 10 per cent after the invoice went out. Crediting it in full
  raises a note at the new rate, which does not cancel it.
  */
  lemma RateEditBreaksTheCredit(s: State)
    requires s == Taxed(1000)
    ensures Sound(s) && RatedDocs(s.rates, s.docs) && RaiseCreditNote(s, 1, []).Done?
    ensures var u := RaiseCreditNote(s, 1, []).state;
            Row(u.docs, 2).Some? && !Cancels(s.accounts, TaxedDoc, Row(u.docs, 2).value)
  {
    TaxedIsSound(1000);
    TaxedIsRated(s, 1000);
    TaxedCredit(s, 1000);
    TaxedPricing(s, 1000);
    WhenFullCreditCancels(s, 1, RaiseCreditNote(s, 1, []).state);
    assert VAT(100, 1000) == 10;
  }
}
