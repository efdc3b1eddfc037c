/**
What a draft says: every field of the one that is stored, however it came to be drafted, and that
the document issued from it says the same.
*/
module Drafting {
  import opened Options
  import opened Sums
  import opened Text
  import opened Amounts
  import opened Ledger
  import opened Documents
  import opened Books
  import opened Journal
  import opened Soundness
  import opened Reconciliation
  import opened Drafts
  import opened Figures

  /** The header: dated and due as asked, or today and after the terms asked, or after the default ones. */
  predicate HeaderAsAsked(s: State, input: DocInput, d: Doc) {
    && d.kind == input.kind && d.client == input.client && d.engagement == input.engagement
    && d.corrects == input.corrects && d.reverseCharge == input.reverseCharge && d.customerVat == TrimSpace(input.customerVat)
    && d.issueDate == (if input.issueDate.Some? then input.issueDate.value else s.today)
    && d.terms == (if input.terms > 0 then input.terms else s.defaultTerms)
    && d.dueDate == (if input.dueDate.Some? then input.dueDate.value else d.issueDate + d.terms)
    && d.issueDate <= d.dueDate
  }

  /** A line: what was asked for, with what was left open filled in, extended and taxed to the nearest unit. */
  predicate LineAsAsked(s: State, reverseCharge: bool, asked: DocLine, l: DocLine) {
    && l.description == TrimSpace(asked.description) != "" && l.unitPrice == asked.unitPrice && l.timeEntry == asked.timeEntry
    && l.quantity == (if asked.quantity != 0 then asked.quantity else 1000)
    && Some(l.income) == (if asked.income != 0 then Some(asked.income) else FindKey(s.accounts, SalesKey))
    && IsKind(s.accounts, l.income, Income)
    && IsNearest(l.quantity * l.unitPrice, 500, l.net)
    && (reverseCharge ==> Some(l.rate) == FirstRate(s.rates, ReverseCharge) && l.rateBP == 0 == l.vat)
    && (!reverseCharge ==>
          && l.rate == (if asked.rate != 0 then asked.rate else s.defaultRate)
          && (l.rate != 0 ==> HasRate(s.rates, l.rate) && l.rateBP == s.rates[l.rate - 1].bp)
          && (l.rate == 0 ==> l.rateBP == asked.rateBP)
          && IsNearest(l.net * l.rateBP, 5000, l.vat))
  }

  predicate LinesAsAsked(s: State, input: DocInput, d: Doc) {
    && |d.lines| == |input.lines| > 0
    && forall i :: 0 <= i < |d.lines| ==> LineAsAsked(s, input.reverseCharge, input.lines[i], d.lines[i])
  }

  predicate DraftAsAsked(s: State, input: DocInput, d: Doc) {
    HeaderAsAsked(s, input, d) && LinesAsAsked(s, input, d) && TotalsAgree(d) && d.status == Draft
  }

  lemma PricedAsAsked(s: State, reverseCharge: bool, p: Pricing, asked: DocLine, l: DocLine)
    requires PricingFor(s, reverseCharge) == Some(p) && PriceLine(p, asked) == Some(l)
    ensures LineAsAsked(s, reverseCharge, asked, l)
  {
    RoundsToNearest(l.quantity * l.unitPrice, 500, l.net);
    RoundsToNearest(l.net * l.rateBP, 5000, l.vat);
  }

  lemma PreparedLines(s: State, input: DocInput, d: Doc)
    requires Prepare(s, input) == Passed(d)
    ensures LinesAsAsked(s, input, d)
  {
    var p := PreparedWith(s, input);
    forall i | 0 <= i < |d.lines|
      ensures LineAsAsked(s, input.reverseCharge, input.lines[i], d.lines[i])
    {
      PricedAsAsked(s, input.reverseCharge, p, input.lines[i], d.lines[i]);
    }
  }

  /** What preparing stores, field by field: the draft as asked, unnumbered, with the totals of its lines. */
  lemma PreparedAsAsked(s: State, input: DocInput, d: Doc)
    requires Prepare(s, input) == Passed(d)
    ensures DraftAsAsked(s, input, d) && d.number == "" && d.paid == input.paid && d.entry == input.entry
  {
    PreparedLines(s, input, d);
    PreparedIsSound(s, input, s.entries);
  }

  /** A draft created is appended as asked, and nothing else changes. */
  lemma CreatedAsAsked(s: State, input: DocInput, t: State, id: Id)
    requires CreateDraft(s, input) == Done(t, id)
    ensures id == |s.docs| + 1 && Row(t.docs, id).Some? && t == s.(docs := s.docs + [Row(t.docs, id)])
    ensures var d := Row(t.docs, id).value;
            DraftAsAsked(s, input, d) && d.number == "" && d.paid == input.paid && d.entry == input.entry
  {
    PreparedAsAsked(s, input, t.docs[|s.docs|].value);
  }

  /** A draft edited says what the edit asks, except for its kind, its number and what it corrects. */
  lemma UpdatedAsAsked(s: State, id: Id, input: DocInput, t: State)
    requires UpdateDraft(s, id, input).Done? && UpdateDraft(s, id, input).state == t
    ensures Row(s.docs, id).Some? && Row(s.docs, id).value.status == Draft
    ensures Row(t.docs, id).Some? && t == s.(docs := s.docs[id - 1 := Row(t.docs, id)])
    ensures var prior, d := Row(s.docs, id).value, Row(t.docs, id).value;
            && DraftAsAsked(s, input.(kind := prior.kind, corrects := prior.corrects), d)
            && d.number == prior.number && d.paid == prior.paid && d.entry == prior.entry
  {
    var prior := Row(s.docs, id).value;
    var asked := input.(kind := prior.kind);
    var prepared := Prepare(s, asked).row;
    PreparedAsAsked(s, asked, prepared);
    KeptAsAsked(s, asked, prepared, prior);
  }

  lemma KeptAsAsked(s: State, input: DocInput, d: Doc, prior: Doc)
    requires DraftAsAsked(s, input, d)
    ensures DraftAsAsked(s, input.(corrects := prior.corrects),
                         d.(number := prior.number, paid := prior.paid, corrects := prior.corrects, entry := prior.entry))
  {
  }

  /** Exactly which edits of a draft are taken: those that could be drafted. */
  lemma WhenDraftIsUpdated(s: State, id: Id, input: DocInput)
    ensures UpdateDraft(s, id, input).Done? <==>
      && Row(s.docs, id).Some? && Row(s.docs, id).value.status == Draft
      && CreateDraft(s, input.(kind := Row(s.docs, id).value.kind)).Done?
  {
  }

  /** Only a draft is deleted, and nothing else goes with it. */
  lemma WhenDraftIsDeleted(s: State, id: Id)
    ensures DeleteDraft(s, id).Done? <==> Row(s.docs, id).Some? && Row(s.docs, id).value.status == Draft
    ensures DeleteDraft(s, id).Done? ==>
      var t := DeleteDraft(s, id).state;
      && t == s.(docs := t.docs) && |t.docs| == |s.docs|
      && Row(t.docs, id) == None && forall other :: other != id ==> Row(t.docs, other) == Row(s.docs, other)
  {
  }

  /**
  From draft to document: what is issued is the draft under a number and an entry of its own, and
  the entry is dated as the caller of the draft asked and posts what the draft came to.
  */
  lemma IssuedAsAsked(s: State, input: DocInput, t: State, id: Id, u: State)
    requires CreateDraft(s, input) == Done(t, id) && Issue(t, id) == Done(u, id)
    ensures Row(u.docs, id).Some? && NewEntry(s, u).Some?
    ensures var d, e := Row(u.docs, id).value, NewEntry(s, u).value;
            && HeaderAsAsked(s, input, d) && LinesAsAsked(s, input, d) && TotalsAgree(d)
            && d.status == Issued && d.entry == |s.entries| + 1 && d.paid == input.paid
            && u.entries == s.entries + [e]
            && e.date == (if input.issueDate.Some? then input.issueDate.value else s.today)
            && forall a :: NetOn(e.lines, a) == DocNet(d, ArAccount(s.accounts), VatOutAccount(s.accounts), a)
  {
    CreatedAsAsked(s, input, t, id);
    IssuedFromDraft(s, input, t, id, u);
  }

  lemma IssuedFromDraft(s: State, input: DocInput, t: State, id: Id, u: State)
    requires Row(t.docs, id).Some? && DraftAsAsked(s, input, Row(t.docs, id).value) && Row(t.docs, id).value.paid == input.paid
    requires t.entries == s.entries && t.accounts == s.accounts
    requires Issue(t, id).Done? && Issue(t, id).state == u
    ensures Row(u.docs, id).Some? && NewEntry(s, u).Some?
    ensures var d, e := Row(u.docs, id).value, NewEntry(s, u).value;
            && HeaderAsAsked(s, input, d) && LinesAsAsked(s, input, d) && TotalsAgree(d)
            && d.status == Issued && d.entry == |s.entries| + 1 && d.paid == input.paid
            && u.entries == s.entries + [e]
            && e.date == (if input.issueDate.Some? then input.issueDate.value else s.today)
            && forall a :: NetOn(e.lines, a) == DocNet(d, ArAccount(s.accounts), VatOutAccount(s.accounts), a)
  {
    IssuedSaysTheSame(t, id, u);
    forall a
      ensures NetOn(NewEntry(s, u).value.lines, a) == DocNet(Row(u.docs, id).value, ArAccount(s.accounts), VatOutAccount(s.accounts), a)
    {
      IssuedMoves(t, id, u, Row(t.docs, id).value, a);
    }
  }

  lemma IssuedMoves(s: State, id: Id, t: State, d: Doc, a: Id)
    requires Issue(s, id).Done? && Issue(s, id).state == t && Row(s.docs, id) == Some(d) && TotalsAgree(d)
    ensures NewEntry(s, t).Some?
    ensures NetOn(NewEntry(s, t).value.lines, a) == DocNet(d, ArAccount(s.accounts), VatOutAccount(s.accounts), a)
  {
    var e := IssuedEntry(s, id, t);
    PostingsBalance(d, ArAccount(s.accounts), VatOutAccount(s.accounts), a);
  }

  lemma IssuedSaysTheSame(s: State, id: Id, t: State)
    requires Issue(s, id).Done? && Issue(s, id).state == t
    ensures Row(s.docs, id).Some? && Row(t.docs, id).Some? && NewEntry(s, t).Some?
    ensures t.entries == s.entries + [NewEntry(s, t).value] && NewEntry(s, t).value.date == Row(s.docs, id).value.issueDate
    ensures var d, issued := Row(s.docs, id).value, Row(t.docs, id).value;
            issued == d.(number := issued.number, status := Issued, entry := |s.entries| + 1)
  {
  }

  // ---- credit notes ----

  /** Exactly which credit notes are drafted: of a live invoice, when its header and every line to credit can be drafted today. */
  lemma WhenCreditIsDrafted(s: State, id: Id, orig: Doc, lines: seq<DocLine>)
    requires Row(s.docs, id) == Some(orig)
    ensures RaiseCreditNote(s, id, lines).Done? <==>
      && orig.kind == Invoice && orig.Live()
      && orig.client != 0 && orig.client in s.clients
      && 0 <= (if orig.terms > 0 then orig.terms else s.defaultTerms)
      && (orig.reverseCharge ==> TrimSpace(orig.customerVat) != "" && FirstRate(s.rates, ReverseCharge).Some?)
      && FindKey(s.accounts, SalesKey).Some?
      && (lines != [] || orig.lines != [])
      && (forall i :: 0 <= i < |lines| ==> CanBePriced(PricingFor(s, orig.reverseCharge).value, lines[i]))
      && (lines == [] ==> forall i :: 0 <= i < |orig.lines| ==>
            CanBePriced(PricingFor(s, orig.reverseCharge).value, Unlinked(orig.lines)[i]))
  {
    if orig.kind == Invoice && orig.Live() {
      DraftIsAcceptedWhen(s, CreditInput(s, id, orig, lines));
    }
  }

  /**
  The draft of a credit note is dated today, on the terms, treatment and VAT number of the invoice
  it corrects, and holds the lines given; or, when none are, all of the invoice's without their time.
  */
  lemma CreditAsAsked(s: State, id: Id, lines: seq<DocLine>, t: State, n: Id)
    requires RaiseCreditNote(s, id, lines) == Done(t, n)
    ensures Row(s.docs, id).Some? && n == |s.docs| + 1 && Row(t.docs, n).Some? && t == s.(docs := s.docs + [Row(t.docs, n)])
    ensures var orig, note := Row(s.docs, id).value, Row(t.docs, n).value;
            && orig.kind == Invoice && orig.Live()
            && note.kind == CreditNote && note.corrects == id && note.status == Draft
            && note.number == "" && note.paid == 0 && note.entry == 0
            && note.client == orig.client && note.engagement == orig.engagement
            && note.reverseCharge == orig.reverseCharge && note.customerVat == TrimSpace(orig.customerVat)
            && note.issueDate == s.today && note.terms == (if orig.terms > 0 then orig.terms else s.defaultTerms)
            && note.dueDate == s.today + note.terms && TotalsAgree(note)
    ensures var orig, note := Row(s.docs, id).value, Row(t.docs, n).value;
            && |note.lines| == (if lines != [] then |lines| else |orig.lines|)
            && forall i :: 0 <= i < |note.lines| ==>
                 LineAsAsked(s, orig.reverseCharge, if lines != [] then lines[i] else orig.lines[i].(timeEntry := 0), note.lines[i])
  {
    CreatedAsAsked(s, CreditInput(s, id, Row(s.docs, id).value, lines), t, n);
  }

  // ---- billing time ----

  /** Exactly which time is offered: billable, not flagged, within the filter, and on no line of a document that is not void. */
  lemma WhatIsOffered(s: State, f: TimeFilter, t: Id)
    ensures t in Unbilled(s, f) <==>
      && Row(s.time, t).Some?
      && Row(s.time, t).value.billable && !Row(s.time, t).value.invoiced
      && (f.engagement != 0 ==> Row(s.time, t).value.engagement == f.engagement)
      && (f.client != 0 ==> Row(s.time, t).value.client == f.client)
      && (f.upTo.Some? ==> Row(s.time, t).value.date <= f.upTo.value)
      && forall i, j :: 0 <= i < |s.docs| && s.docs[i].Some? && 0 <= j < |s.docs[i].value.lines| && s.docs[i].value.lines[j].timeEntry == t ==>
           s.docs[i].value.status == Void
  {
    if SpokenFor(s.docs, t) {
      var i :| 0 <= i < |s.docs| && s.docs[i].Some? && s.docs[i].value.status != Void && BillsTime(s.docs[i].value, t);
      var j :| 0 <= j < |s.docs[i].value.lines| && s.docs[i].value.lines[j].timeEntry == t;
    } else {
      forall i, j | 0 <= i < |s.docs| && s.docs[i].Some? && 0 <= j < |s.docs[i].value.lines| && s.docs[i].value.lines[j].timeEntry == t
        ensures s.docs[i].value.status == Void
      {
        assert BillsTime(s.docs[i].value, t);
      }
    }
  }

  /** And in which order: by client, then engagement, then date, then id. */
  lemma OrderOfTheOffer(s: State, f: TimeFilter, i: nat, j: nat)
    requires i < j < |Unbilled(s, f)|
    ensures Row(s.time, Unbilled(s, f)[i]).Some? && Row(s.time, Unbilled(s, f)[j]).Some?
    ensures var a, b := Unbilled(s, f)[i], Unbilled(s, f)[j];
            var x, y := Row(s.time, a).value, Row(s.time, b).value;
            && x.client <= y.client
            && (x.client == y.client ==> x.engagement <= y.engagement)
            && (x.client == y.client && x.engagement == y.engagement ==> x.date <= y.date)
            && (x.client == y.client && x.engagement == y.engagement && x.date == y.date ==> a < b)
  {
    assert BillingOrder(s)(Unbilled(s, f)[i], Unbilled(s, f)[j]);
  }

  /** Every entry on offer is the client's, at a rate. */
  predicate Billable(s: State, ids: seq<Id>, client: Id) {
    forall i :: 0 <= i < |ids| ==> Row(s.time, ids[i]).Some? && Row(s.time, ids[i]).value.client == client && Row(s.time, ids[i]).value.rate != 0
  }

  /** Exactly which selections of time are billed: something for one known client, all of it at a rate, on books that can price it. */
  lemma WhenTimeIsBilled(s: State, f: TimeFilter)
    ensures BillTime(s, f).Done? <==>
      && (f.client != 0 || f.engagement != 0)
      && (exists client :: client != 0 && client in s.clients && Billable(s, Unbilled(s, f), client))
      && Unbilled(s, f) != []
      && 0 <= s.defaultTerms
      && (s.defaultRate == 0 || HasRate(s.rates, s.defaultRate))
      && FindKey(s.accounts, SalesKey).Some? && IsKind(s.accounts, FindKey(s.accounts, SalesKey).value, Income)
  {
    var ids := Unbilled(s, f);
    if ids != [] && FindKey(s.accounts, SalesKey).Some? {
      WhenTimeCanBeDrafted(s, ids, FindKey(s.accounts, SalesKey).value);
      var client := Logged(s, ids, 0).client;
      assert (exists c :: c != 0 && c in s.clients && Billable(s, ids, c)) <==> client != 0 && client in s.clients && Billable(s, ids, client);
    }
  }

  lemma WhenTimeCanBeDrafted(s: State, ids: seq<Id>, income: Id)
    requires AllLogged(s, ids) && FindKey(s.accounts, SalesKey) == Some(income)
    ensures CreateDraft(s, TimeInput(s, ids, income)).Done? <==>
      && Logged(s, ids, 0).client != 0 && Logged(s, ids, 0).client in s.clients
      && 0 <= s.defaultTerms && (s.defaultRate == 0 || HasRate(s.rates, s.defaultRate)) && IsKind(s.accounts, income, Income)
  {
    var input := TimeInput(s, ids, income);
    var p := PricingFor(s, false).value;
    DraftIsAcceptedWhen(s, input);
    forall i | 0 <= i < |ids|
      ensures CanBePriced(p, input.lines[i]) <==> IsKind(s.accounts, income, Income) && (s.defaultRate == 0 || HasRate(s.rates, s.defaultRate))
    {
      assert input.lines[i] == TimeLine(Logged(s, ids, i), ids[i], s.defaultRate, income);
      assert TrimSpace("time entry") == "time entry";
    }
    assert income != 0 && input.lines[0] == TimeLine(Logged(s, ids, 0), ids[0], s.defaultRate, income);
  }

  /** The line of a time entry: its hours at its rate, one hour when it has none. */
  predicate BillsEntry(s: State, e: TimeEntry, t: Id, l: DocLine) {
    && l.timeEntry == t && l.quantity == (if e.hours != 0 then e.hours else 1000) && l.unitPrice == e.rate != 0
    && IsNearest(l.quantity * e.rate, 500, l.net)
    && FindKey(s.accounts, SalesKey) == Some(l.income) && l.rate == s.defaultRate
  }

  /**
  Billing time drafts an invoice for today with one line per entry on offer, in their order; it is
  for the one client they share, and for their engagement when they share that too.
  */
  lemma BilledAsOffered(s: State, f: TimeFilter, t: State, n: Id)
    requires BillTime(s, f) == Done(t, n)
    ensures n == |s.docs| + 1 && Row(t.docs, n).Some? && t == s.(docs := s.docs + [Row(t.docs, n)])
    ensures var ids, d := Unbilled(s, f), Row(t.docs, n).value;
            && d.kind == Invoice && d.issueDate == s.today && d.terms == s.defaultTerms && !d.reverseCharge
            && d.number == "" && d.paid == 0 && d.entry == 0 && d.corrects == 0
            && |d.lines| == |ids| > 0
            && forall i :: 0 <= i < |ids| ==> Row(s.time, ids[i]).Some? && Row(s.time, ids[i]).value.client == d.client
    ensures var ids, d := Unbilled(s, f), Row(t.docs, n).value;
            forall i :: 0 <= i < |ids| ==> BillsEntry(s, Row(s.time, ids[i]).value, ids[i], d.lines[i])
    ensures var ids, d := Unbilled(s, f), Row(t.docs, n).value;
            var shared := Row(s.time, ids[0]).value.engagement;
            d.engagement == if forall i :: 0 <= i < |ids| ==> Row(s.time, ids[i]).value.engagement == shared then shared else 0
  {
    WhenTimeIsBilled(s, f);
    var ids, income := Unbilled(s, f), FindKey(s.accounts, SalesKey).value;
    var input := TimeInput(s, ids, income);
    CreatedAsAsked(s, input, t, n);
    forall i | 0 <= i < |ids|
      ensures BillsEntry(s, Row(s.time, ids[i]).value, ids[i], Row(t.docs, n).value.lines[i])
    {
      assert LineAsAsked(s, false, input.lines[i], Row(t.docs, n).value.lines[i]);
      assert input.lines[i] == TimeLine(Logged(s, ids, i), ids[i], s.defaultRate, income);
    }
  }
}
