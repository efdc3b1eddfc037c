/**
From draft to credit. A document goes on pricing as it was priced through any run that leaves
rates, the default rate and the income accounts alone, so crediting it in full undoes it.
*/
module Crediting {
  import opened Options
  import opened Sums
  import opened Amounts
  import opened Ledger
  import opened Documents
  import opened Books
  import opened Journal
  import opened Soundness
  import opened Drafts
  import opened FiledReturns
  import opened Housekeeping

  ghost predicate PricesIn(s: State, d: Doc) {
    PricingFor(s, d.reverseCharge).Some? && PricedAlready(PricingFor(s, d.reverseCharge).value, d.lines)
  }

  /** Pricing the document's lines again would change nothing. */
  ghost predicate PricesAsItDid(s: State, id: Id) {
    Row(s.docs, id).Some? ==> PricesIn(s, Row(s.docs, id).value)
  }

  /** No rate and no default changed, and what was an income account still is one. */
  ghost predicate PricingStands(s: State, t: State) {
    && t.rates == s.rates && t.defaultRate == s.defaultRate
    && forall id :: IsKind(s.accounts, id, Income) ==> IsKind(t.accounts, id, Income)
  }

  ghost predicate RunPricingStands(s: State, steps: seq<Step>) {
    steps != [] ==>
      && RunPricingStands(s, steps[..|steps| - 1])
      && PricingStands(Run(s, steps[..|steps| - 1]), Run(s, steps))
  }

  lemma SamePricingFor(s: State, t: State, reverseCharge: bool)
    requires PricingStands(s, t) && ChartGrows(s.accounts, t.accounts) && PricingFor(s, reverseCharge).Some?
    ensures PricingFor(t, reverseCharge).Some?
    ensures SamePricing(PricingFor(s, reverseCharge).value, PricingFor(t, reverseCharge).value)
  {
    KeysStayPut(s.accounts, t.accounts, SalesKey);
  }

  /** A row that says what it said still prices as it did. */
  lemma SameRowPrices(s: State, t: State, id: Id)
    requires PricesAsItDid(s, id) && PricingStands(s, t) && ChartGrows(s.accounts, t.accounts)
    requires Row(t.docs, id).Some? ==>
      && Row(s.docs, id).Some? && Row(t.docs, id).value.lines == Row(s.docs, id).value.lines
      && Row(t.docs, id).value.reverseCharge == Row(s.docs, id).value.reverseCharge
    ensures PricesAsItDid(t, id)
  {
    if Row(t.docs, id).Some? {
      var d := Row(s.docs, id).value;
      SamePricingFor(s, t, d.reverseCharge);
      PricedStaysPriced(PricingFor(s, d.reverseCharge).value, PricingFor(t, d.reverseCharge).value, d.lines, d.lines);
    }
  }

  lemma PreparedPrices(s: State, input: DocInput)
    requires Prepare(s, input).Passed?
    ensures var d := Prepare(s, input).row;
            d.reverseCharge == input.reverseCharge && PricesIn(s, d)
  {
    PreparedStaysPriced(s, input, s);
  }

  lemma CreatedPrices(s: State, input: DocInput, id: Id)
    requires PricesAsItDid(s, id)
    ensures CreateDraft(s, input).Done? ==> PricesAsItDid(CreateDraft(s, input).state, id)
  {
    if CreateDraft(s, input).Done? {
      PreparedPrices(s, input);
      AppendedPrices(s, Prepare(s, input).row, id);
    }
  }

  lemma AppendedPrices(s: State, d: Doc, id: Id)
    requires PricesAsItDid(s, id) && PricesIn(s, d)
    ensures PricesAsItDid(s.(docs := s.docs + [Some(d)]), id)
  {
    var t := s.(docs := s.docs + [Some(d)]);
    assert PricingFor(t, true) == PricingFor(s, true) && PricingFor(t, false) == PricingFor(s, false);
  }

  lemma ReplacedPrices(s: State, at: Id, d: Doc, id: Id)
    requires PricesAsItDid(s, id) && PricesIn(s, d) && Row(s.docs, at).Some?
    ensures PricesAsItDid(s.(docs := s.docs[at - 1 := Some(d)]), id)
  {
    var t := s.(docs := s.docs[at - 1 := Some(d)]);
    assert PricingFor(t, true) == PricingFor(s, true) && PricingFor(t, false) == PricingFor(s, false);
  }

  lemma UpdatedPrices(s: State, at: Id, input: DocInput, id: Id)
    requires PricesAsItDid(s, id)
    ensures UpdateDraft(s, at, input).Done? ==> PricesAsItDid(UpdateDraft(s, at, input).state, id)
  {
    if UpdateDraft(s, at, input).Done? {
      var prior := Row(s.docs, at).value;
      var d := Prepare(s, input.(kind := prior.kind)).row;
      PreparedPrices(s, input.(kind := prior.kind));
      ReplacedPrices(s, at, d.(number := prior.number, paid := prior.paid, corrects := prior.corrects, entry := prior.entry), id);
    }
  }

  lemma DeletedPrices(s: State, at: Id, id: Id)
    requires PricesAsItDid(s, id)
    ensures DeleteDraft(s, at).Done? ==> PricesAsItDid(DeleteDraft(s, at).state, id)
  {
    if DeleteDraft(s, at).Done? {
      var t := s.(docs := s.docs[at - 1 := None]);
      assert PricingFor(t, true) == PricingFor(s, true) && PricingFor(t, false) == PricingFor(s, false);
    }
  }

  lemma DraftStepPrices(s: State, step: Step, id: Id)
    requires EditsDrafts(step) && PricesAsItDid(s, id)
    ensures PricesAsItDid(After(s, step), id)
  {
    match step
    case DoCreateDraft(input) => CreatedPrices(s, input, id);
    case DoUpdateDraft(at, input) => UpdatedPrices(s, at, input, id);
    case DoDeleteDraft(at) => DeletedPrices(s, at, id);
    case DoCreditNote(at, lines) =>
      if RaiseCreditNote(s, at, lines).Done? {
        CreatedPrices(s, CreditInput(s, at, Row(s.docs, at).value, lines), id);
      }
    case DoBillTime(f) =>
      if BillTime(s, f).Done? {
        CreatedPrices(s, TimeInput(s, Unbilled(s, f), FindKey(s.accounts, SalesKey).value), id);
      }
  }

  lemma StepPrices(s: State, step: Step, id: Id)
    requires PricesAsItDid(s, id) && PricingStands(s, After(s, step))
    ensures PricesAsItDid(After(s, step), id)
  {
    if EditsDrafts(step) {
      DraftStepPrices(s, step, id);
    } else {
      StepKeepsChart(s, step);
      StepKeepsLines(s, step);
      SameRowPrices(s, After(s, step), id);
    }
  }

  /** From before its draft was made, whatever else happens, a document goes on pricing as it was priced. */
  lemma {:induction false} GoesOnPricing(s: State, steps: seq<Step>, id: Id)
    requires PricesAsItDid(s, id) && RunPricingStands(s, steps)
    ensures PricesAsItDid(Run(s, steps), id)
  {
    if steps != [] {
      GoesOnPricing(s, steps[..|steps| - 1], id);
      StepPrices(Run(s, steps[..|steps| - 1]), steps[|steps| - 1], id);
    }
  }

  /**
  From draft to credit: through any run that leaves rates, the default rate and the income
  accounts alone, drafting, editing, issuing and being paid included, crediting an invoice in
  full raises a note that undoes it to the unit on every account.
  */
  lemma FullCreditUndoesTheInvoice(s: State, steps: seq<Step>, t: State, id: Id, u: State)
    requires Sound(s) && AllClean(steps) && Row(s.docs, id).None? && RunPricingStands(s, steps)
    requires t == Run(s, steps) && RaiseCreditNote(t, id, []) == Done(u, |t.docs| + 1)
    ensures Row(t.docs, id).Some? && Row(u.docs, |t.docs| + 1).Some?
    ensures Row(u.docs, |t.docs| + 1).value.kind == CreditNote && Row(u.docs, |t.docs| + 1).value.corrects == id
    ensures Undoes(t.accounts, Row(t.docs, id).value, Row(u.docs, |t.docs| + 1).value)
  {
    RunStaysSound(s, steps);
    GoesOnPricing(s, steps, id);
    CreditIsPrepared(t, id, u);
    SameLinesUndo(t.accounts, Row(t.docs, id).value, Row(u.docs, |t.docs| + 1).value);
  }

  // ---- exactly when a full credit cancels its invoice ----

  /** The tax a line would be charged if it were priced again now. */
  function TaxNow(p: Pricing): DocLine -> int {
    (l: DocLine) =>
      var rate := if l.rate == 0 then p.defaultRate else l.rate;
      if p.reverse.Some? then 0 else VAT(l.net, if HasRate(p.rates, rate) then p.rates[rate - 1].bp else l.rateBP)
  }

  /** Pricing again moves the tax of a line and nothing else that is posted. */
  lemma RepricedLine(p: Pricing, l: DocLine, again: DocLine)
    requires ExtendedLine(l) && PriceLine(p, l.(timeEntry := 0)) == Some(again)
    ensures again.net == l.net && again.income == l.income && again.vat == TaxNow(p)(l)
  {
  }

  lemma RepricedLines(p: Pricing, lines: seq<DocLine>, again: seq<DocLine>, a: Id)
    requires forall i :: 0 <= i < |lines| ==> ExtendedLine(lines[i])
    requires PriceLines(p, Unlinked(lines)) == Some(again)
    ensures |again| == |lines|
    ensures Sum(again, NetAmount()) == Sum(lines, NetAmount()) && Sum(again, VatAmount()) == Sum(lines, TaxNow(p))
    ensures Sum(again, IncomeOf(a)) == Sum(lines, IncomeOf(a))
  {
    forall i | 0 <= i < |lines|
      ensures again[i].net == lines[i].net && again[i].income == lines[i].income && again[i].vat == TaxNow(p)(lines[i])
    {
      assert PriceLine(p, Unlinked(lines)[i]) == Some(again[i]);
      RepricedLine(p, lines[i], again[i]);
    }
    SumAlong(again, lines, NetAmount(), NetAmount());
    SumAlong(again, lines, VatAmount(), TaxNow(p));
    SumAlong(again, lines, IncomeOf(a), IncomeOf(a));
  }

  lemma SameIncomeCancels(accounts: seq<Account>, orig: Doc, note: Doc)
    requires TotalsAgree(orig) && TotalsAgree(note) && orig.kind == Invoice && note.kind == CreditNote
    requires note.subtotal == orig.subtotal && forall a :: Sum(note.lines, IncomeOf(a)) == Sum(orig.lines, IncomeOf(a))
    ensures Cancels(accounts, orig, note) <==> note.vat == orig.vat
  {
    if note.vat == orig.vat {
      forall a
        ensures NetOn(LinesOfDoc(accounts, note), a) == -NetOn(LinesOfDoc(accounts, orig), a)
      {
        PostingsBalance(orig, ArAccount(accounts), VatOutAccount(accounts), a);
        PostingsBalance(note, ArAccount(accounts), VatOutAccount(accounts), a);
      }
    }
  }

  /** What the draft of a full credit is made from. */
  lemma CreditDraft(t: State, id: Id, u: State) returns (p: Pricing, orig: Doc, note: Doc)
    requires Sound(t) && RaiseCreditNote(t, id, []) == Done(u, |t.docs| + 1)
    ensures Row(t.docs, id) == Some(orig) && Row(u.docs, |t.docs| + 1) == Some(note)
    ensures PricingFor(t, orig.reverseCharge) == Some(p)
    ensures orig.kind == Invoice && note.kind == CreditNote && TotalsAgree(orig) && TotalsAgree(note)
    ensures PriceLines(p, Unlinked(orig.lines)) == Some(note.lines)
  {
    orig, note := CreditRows(t, id, u);
    assert DocSound(t.accounts, t.entries, t.docs[id - 1].value);
    var input := CreditInput(t, id, orig, []);
    PreparedIsSound(t, input, t.entries);
    p := PreparedWith(t, input);
  }

  lemma CreditRows(t: State, id: Id, u: State) returns (orig: Doc, note: Doc)
    requires RaiseCreditNote(t, id, []) == Done(u, |t.docs| + 1)
    ensures Row(t.docs, id) == Some(orig) && Row(u.docs, |t.docs| + 1) == Some(note)
    ensures orig.kind == Invoice && Prepare(t, CreditInput(t, id, orig, [])) == Passed(note)
  {
    orig, note := Row(t.docs, id).value, Row(u.docs, |t.docs| + 1).value;
  }

  /**
  A full credit copies the lines and prices them again at today's rates. Once it is accepted, it
  cancels its invoice if and only if the lines' tax at those rates comes to the invoice's own.
  */
  lemma WhenFullCreditCancels(t: State, id: Id, u: State)
    requires Sound(t) && RatedDocs(t.rates, t.docs) && RaiseCreditNote(t, id, []) == Done(u, |t.docs| + 1)
    ensures Row(t.docs, id).Some? && Row(u.docs, |t.docs| + 1).Some?
    ensures PricingFor(t, Row(t.docs, id).value.reverseCharge).Some?
    ensures var orig, note := Row(t.docs, id).value, Row(u.docs, |t.docs| + 1).value;
            Cancels(t.accounts, orig, note) <==> Sum(orig.lines, TaxNow(PricingFor(t, orig.reverseCharge).value)) == orig.vat
  {
    var p, orig, note := CreditDraft(t, id, u);
    forall i | 0 <= i < |orig.lines|
      ensures ExtendedLine(orig.lines[i])
    {
      assert RatedLine(t.rates, t.docs[id - 1].value.lines[i]);
    }
    forall a
      ensures Sum(note.lines, IncomeOf(a)) == Sum(orig.lines, IncomeOf(a))
    {
      RepricedLines(p, orig.lines, note.lines, a);
    }
    RepricedLines(p, orig.lines, note.lines, 0);
    SameIncomeCancels(t.accounts, orig, note);
  }
}
