/**
Drafts raised through the books: exactly which are accepted, what reverse charge means for one,
and what the draft of a full credit note says.
*/
module Drafts {
  import opened Options
  import opened Sums
  import opened Text
  import opened Amounts
  import opened Ledger
  import opened Documents
  import opened Books
  import opened Soundness

  /** What a line needs: a description, an income account, and a rate that exists unless the draft is reverse-charged. */
  predicate CanBePriced(p: Pricing, l: DocLine) {
    && TrimSpace(l.description) != ""
    && IsKind(p.accounts, if l.income == 0 then p.defaultIncome else l.income, Income)
    && (p.reverse.Some? || l.rate != 0 || p.defaultRate == 0 || HasRate(p.rates, p.defaultRate))
    && (p.reverse.Some? || l.rate == 0 || HasRate(p.rates, l.rate))
  }

  lemma LinesCanBePriced(p: Pricing, lines: seq<DocLine>)
    ensures PriceLines(p, lines).Some? <==> forall i :: 0 <= i < |lines| ==> CanBePriced(p, lines[i])
  {
    if forall i :: 0 <= i < |lines| ==> CanBePriced(p, lines[i]) {
      forall i | 0 <= i < |lines|
        ensures PriceLine(p, lines[i]).Some?
      {
        assert CanBePriced(p, lines[i]);
      }
      PriceLinesBuilds(p, lines, seq(|lines|, i requires 0 <= i < |lines| => PriceLine(p, lines[i]).value));
    } else {
      var i :| 0 <= i < |lines| && !CanBePriced(p, lines[i]);
      PriceLinesFails(p, lines, i);
    }
  }

  function IssueDateOf(s: State, input: DocInput): Date {
    input.issueDate.GetOr(s.today)
  }

  function TermsOf(s: State, input: DocInput): int {
    if input.terms <= 0 then s.defaultTerms else input.terms
  }

  /** Exactly which drafts are accepted. */
  lemma DraftIsAcceptedWhen(s: State, input: DocInput)
    ensures CreateDraft(s, input).Done? <==>
      && input.client != 0 && input.client in s.clients
      && input.lines != []
      && IssueDateOf(s, input) <= input.dueDate.GetOr(IssueDateOf(s, input) + TermsOf(s, input))
      && (input.reverseCharge ==> TrimSpace(input.customerVat) != "" && FirstRate(s.rates, ReverseCharge).Some?)
      && FindKey(s.accounts, SalesKey).Some?
      && forall i :: 0 <= i < |input.lines| ==> CanBePriced(PricingFor(s, input.reverseCharge).value, input.lines[i])
  {
    if PricingFor(s, input.reverseCharge).Some? {
      LinesCanBePriced(PricingFor(s, input.reverseCharge).value, input.lines);
    }
  }

  lemma PreparedWith(s: State, input: DocInput) returns (p: Pricing)
    requires Prepare(s, input).Passed?
    ensures PricingFor(s, input.reverseCharge) == Some(p)
    ensures p.rates == s.rates && p.reverse == if input.reverseCharge then FirstRate(s.rates, ReverseCharge) else None
    ensures Prepare(s, input).row.kind == input.kind && TotalsAgree(Prepare(s, input).row)
    ensures PriceLines(p, input.lines) == Some(Prepare(s, input).row.lines)
  {
    p := PricingFor(s, input.reverseCharge).value;
  }

  lemma ReverseChargedLine(p: Pricing, l: DocLine, priced: DocLine)
    requires p.reverse.Some? && PriceLine(p, l) == Some(priced)
    ensures priced.rate == p.reverse.value && priced.vat == 0
  {
  }

  lemma ReverseChargedLines(p: Pricing, lines: seq<DocLine>, priced: seq<DocLine>)
    requires p.reverse.Some? && PriceLines(p, lines) == Some(priced)
    ensures forall i :: 0 <= i < |priced| ==> priced[i].rate == p.reverse.value
    ensures Sum(priced, VatAmount()) == 0
  {
    forall i | 0 <= i < |priced|
      ensures priced[i].rate == p.reverse.value && VatAmount()(priced[i]) == 0
    {
      ReverseChargedLine(p, lines[i], priced[i]);
    }
    SumNone(priced, VatAmount());
  }

  /** A reverse-charged draft carries no tax, and every line is at a reverse-charge rate still in use. */
  lemma ReverseChargeCarriesNoTax(s: State, input: DocInput)
    requires Prepare(s, input).Passed? && input.reverseCharge
    ensures var d := Prepare(s, input).row;
            && d.vat == 0 && d.total == d.subtotal
            && forall i :: 0 <= i < |d.lines| ==>
                 HasRate(s.rates, d.lines[i].rate) && s.rates[d.lines[i].rate - 1].kind == ReverseCharge
                 && !s.rates[d.lines[i].rate - 1].archived
  {
    var p := PreparedWith(s, input);
    FirstRateIsOfKind(s.rates, ReverseCharge);
    ReverseChargedLines(p, input.lines, Prepare(s, input).row.lines);
  }

  lemma {:induction false} FirstRateIsOfKind(rates: seq<VatRate>, kind: VatKind)
    ensures var r := FirstRate(rates, kind);
            && (r.Some? ==> HasRate(rates, r.value) && rates[r.value - 1].kind == kind && !rates[r.value - 1].archived)
            && (r.None? <==> forall i :: 0 <= i < |rates| ==> rates[i].kind != kind || rates[i].archived)
            && (r.Some? ==> forall i :: 0 <= i < r.value - 1 ==> rates[i].kind != kind || rates[i].archived)
  {
    if rates != [] {
      FirstRateIsOfKind(rates[..|rates| - 1], kind);
    }
  }

  /** Everything pricing reads is as it was: same rates and defaults, and income accounts still income accounts. */
  ghost predicate SamePricing(p: Pricing, q: Pricing) {
    && q == p.(accounts := q.accounts)
    && forall id :: IsKind(p.accounts, id, Income) ==> IsKind(q.accounts, id, Income)
  }

  /** Lines that pricing leaves as they are. */
  predicate PricedAlready(p: Pricing, lines: seq<DocLine>) {
    PriceLines(p, lines) == Some(lines)
  }

  lemma LineStaysPriced(p: Pricing, q: Pricing, l: DocLine)
    requires PriceLine(p, l) == Some(l) && SamePricing(p, q)
    ensures PriceLine(q, l) == Some(l)
  {
  }

  lemma PricedStaysPriced(p: Pricing, q: Pricing, lines: seq<DocLine>, priced: seq<DocLine>)
    requires PriceLines(p, lines) == Some(priced) && SamePricing(p, q)
    ensures PricedAlready(q, priced)
  {
    PricingIsSettled(p, lines, priced);
    forall i | 0 <= i < |priced|
      ensures PriceLine(q, priced[i]) == Some(priced[i])
    {
      LineStaysPriced(p, q, priced[i]);
    }
    PriceLinesBuilds(q, priced, priced);
  }

  /** A draft just prepared stays priced for as long as rates, settings and its income accounts do. */
  lemma PreparedStaysPriced(s: State, input: DocInput, t: State)
    requires Prepare(s, input).Passed?
    requires PricingFor(t, input.reverseCharge).Some?
    requires SamePricing(PricingFor(s, input.reverseCharge).value, PricingFor(t, input.reverseCharge).value)
    ensures PricedAlready(PricingFor(t, input.reverseCharge).value, Prepare(s, input).row.lines)
  {
    PricedStaysPriced(PricingFor(s, input.reverseCharge).value, PricingFor(t, input.reverseCharge).value,
                      input.lines, Prepare(s, input).row.lines);
  }

  lemma CreditIsPrepared(s: State, id: Id, u: State)
    requires Sound(s) && RaiseCreditNote(s, id, []) == Done(u, |s.docs| + 1)
    requires PricingFor(s, Row(s.docs, id).value.reverseCharge).Some?
    requires PricedAlready(PricingFor(s, Row(s.docs, id).value.reverseCharge).value, Row(s.docs, id).value.lines)
    ensures Row(s.docs, id).Some? && Row(s.docs, id).value.kind == Invoice && TotalsAgree(Row(s.docs, id).value)
    ensures Row(u.docs, |s.docs| + 1).Some?
    ensures var orig, note := Row(s.docs, id).value, Row(u.docs, |s.docs| + 1).value;
            && note.kind == CreditNote && note.corrects == id
            && TotalsAgree(note) && note.lines == Unlinked(orig.lines)
  {
    var orig := Row(s.docs, id).value;
    assert DocSound(s.accounts, s.entries, orig);
    PricingIsSettled(PricingFor(s, orig.reverseCharge).value, orig.lines, orig.lines);
    PreparedIsSound(s, CreditInput(s, id, orig, []), s.entries);
  }

  /** For the same total and the same tax, and the exact negation on every account. */
  ghost predicate Cancels(accounts: seq<Account>, orig: Doc, note: Doc) {
    && note.total == orig.total && note.vat == orig.vat
    && forall a :: NetOn(LinesOfDoc(accounts, note), a) == -NetOn(LinesOfDoc(accounts, orig), a)
  }

  /** The note cancels the invoice line by line, and carries none of its time. */
  ghost predicate Undoes(accounts: seq<Account>, orig: Doc, note: Doc) {
    Cancels(accounts, orig, note) && note.lines == Unlinked(orig.lines)
  }

  lemma SameLinesUndo(accounts: seq<Account>, orig: Doc, note: Doc)
    requires TotalsAgree(orig) && TotalsAgree(note)
    requires orig.kind == Invoice && note.kind == CreditNote && note.lines == Unlinked(orig.lines)
    ensures Undoes(accounts, orig, note)
  {
    CreditNegatesInvoice(orig, note, ArAccount(accounts), VatOutAccount(accounts), 0);
    forall a
      ensures NetOn(LinesOfDoc(accounts, note), a) == -NetOn(LinesOfDoc(accounts, orig), a)
    {
      CreditNegatesInvoice(orig, note, ArAccount(accounts), VatOutAccount(accounts), a);
    }
  }
}
