/**
The accounting service over its tables, changed in place. Every operation does exactly what the
state machine says: it moves the tables to the next state and answers with the new row's id, or
leaves them as they were and says why it refused.
*/
module Service {
  import opened Options
  import opened Sums
  import opened Ordering
  import opened Text
  import opened Amounts
  import opened Ledger
  import opened Documents
  import Books
  import opened Statements
  import opened Reports
  import opened ControlAccounts
  import opened Closing
  import opened Figures
  import opened Soundness

  type State = Books.State
  type Refusal = Books.Refusal

  datatype Answer = Accepted(id: Id) | Declined(why: Refusal)

  datatype VatReturn = VatReturn(
    standard: Money, zero: Money, exempt: Money, reverse: Money, purchases: Money,
    outputVat: Money, inputVat: Money, netDue: Money, mismatch: bool)

  predicate Follows(before: State, outcome: Books.Outcome, after: State, r: Answer) {
    match outcome
    case Done(next, id) => after == next && r == Accepted(id)
    case Refused(why) => after == before && r == Declined(why)
  }

  class AccountingService {
    var today: Date
    var accounts: seq<Account>
    var entries: seq<Entry>
    var periods: seq<Books.Period>
    var rates: seq<VatRate>
    var defaultTerms: int
    var defaultRate: Id
    var nextInvoice: nat
    var nextCreditNote: nat
    var docs: seq<Option<Doc>>
    var payments: seq<Option<Books.Payment>>
    var expenses: seq<Option<Books.ExpenseRow>>
    var fundings: seq<Option<Books.Funding>>
    var clients: set<Id>
    var time: seq<Option<Books.TimeEntry>>

    function View(): State
      reads this
    {
      Books.State(today, accounts, entries, periods, rates, defaultTerms, defaultRate, nextInvoice, nextCreditNote,
                  docs, payments, expenses, fundings, clients, time)
    }

    constructor (s: State)
      ensures View() == s
    {
      today, accounts, entries, periods, rates := s.today, s.accounts, s.entries, s.periods, s.rates;
      defaultTerms, defaultRate := s.defaultTerms, s.defaultRate;
      nextInvoice, nextCreditNote := s.nextInvoice, s.nextCreditNote;
      docs, payments, expenses, fundings := s.docs, s.payments, s.expenses, s.fundings;
      clients, time := s.clients, s.time;
    }

    // ---- accounts, rates, settings and periods ----

    method CreateAccount(a: Account) returns (r: Answer)
      modifies this
      ensures Follows(old(View()), Books.CreateAccount(old(View()), a), View(), r)
    {
      var code, name := TrimSpace(a.code), TrimSpace(a.name);
      if code == "" || name == "" {
        return Declined(Books.Invalid);
      }
      if Books.CodeTaken(accounts, code, 0) {
        return Declined(Books.Invalid);
      }
      accounts := accounts + [Account(code, name, a.kind, NoKey, a.archived)];
      return Accepted(|accounts|);
    }

    method UpdateAccount(id: Id, a: Account) returns (r: Answer)
      modifies this
      ensures Follows(old(View()), Books.UpdateAccount(old(View()), id, a), View(), r)
    {
      if !HasAccount(accounts, id) {
        return Declined(Books.NotFound);
      }
      var existing := accounts[id - 1];
      var code, name := TrimSpace(a.code), TrimSpace(a.name);
      if code == "" || name == "" {
        return Declined(Books.Invalid);
      }
      if a.kind != existing.kind && Books.HasPostings(entries, id) {
        return Declined(Books.Invalid);
      }
      if Books.CodeTaken(accounts, code, id) {
        return Declined(Books.Invalid);
      }
      accounts := accounts[id - 1 := Account(code, name, a.kind, existing.key, a.archived)];
      return Accepted(id);
    }

    method ArchiveAccount(id: Id, archived: bool) returns (r: Answer)
      modifies this
      ensures Follows(old(View()), Books.ArchiveAccount(old(View()), id, archived), View(), r)
    {
      if !HasAccount(accounts, id) {
        return Declined(Books.NotFound);
      }
      if archived && accounts[id - 1].key != NoKey {
        return Declined(Books.Invalid);
      }
      accounts := accounts[id - 1 := accounts[id - 1].(archived := archived)];
      return Accepted(id);
    }

    method SaveVATRate(id: Id, v: VatRate) returns (r: Answer)
      modifies this
      ensures Follows(old(View()), Books.SaveRate(old(View()), id, v), View(), r)
    {
      if v.bp < 0 || v.bp > 10000 {
        return Declined(Books.Invalid);
      }
      if (v.kind == Zero || v.kind == Exempt || v.kind == ReverseCharge) && v.bp != 0 {
        return Declined(Books.Invalid);
      }
      if id == 0 {
        rates := rates + [v];
        return Accepted(|rates|);
      }
      if !HasRate(rates, id) {
        return Declined(Books.NotFound);
      }
      rates := rates[id - 1 := v];
      return Accepted(id);
    }

    method SaveSettings(terms: int, rate: Id) returns (r: Answer)
      modifies this
      ensures Follows(old(View()), Books.SaveSettings(old(View()), terms, rate), View(), r)
    {
      if terms < 0 || terms > 365 {
        return Declined(Books.Invalid);
      }
      if rate != 0 && !HasRate(rates, rate) {
        return Declined(Books.Invalid);
      }
      defaultTerms, defaultRate := terms, rate;
      return Accepted(1);
    }

    method LockPeriod(id: Id, p: Books.Period) returns (r: Answer)
      modifies this
      ensures Follows(old(View()), Books.SavePeriod(old(View()), id, p), View(), r)
      ensures r.Accepted? <==> p.startsOn <= p.endsOn
      ensures r.Accepted? ==> forall d :: Books.Locked(periods, d) <==>
        (IsStored(old(periods), id) && p.locked && p.startsOn <= d <= p.endsOn) || LockedByAnother(old(periods), id, d)
    {
      WhichDatesAreClosed(View(), id, p);
      if p.endsOn < p.startsOn {
        return Declined(Books.Invalid);
      }
      if id == 0 {
        periods := periods + [p];
        return Accepted(|periods|);
      }
      if 1 <= id <= |periods| {
        periods := periods[id - 1 := p];
      }
      return Accepted(id);
    }

    // ---- the journal ----

    /** The validation loop and the write behind every manual posting and every reversal. */
    method Post(date: Option<Date>, source: Source, sourceId: Id, reverses: Id, lines: seq<Line>) returns (r: Answer)
      modifies this
      ensures Follows(old(View()), Books.Post(old(View()), date, source, sourceId, reverses, lines), View(), r)
    {
      var d := date.GetOr(today);
      if Books.Locked(periods, d) {
        return Declined(Books.PeriodLocked);
      }
      if |lines| < 2 {
        return Declined(Books.Invalid);
      }
      var debit, credit := 0, 0;
      for i := 0 to |lines|
        invariant unchanged(this)
        invariant debit == Sum(lines[..i], AnyDebit()) && credit == Sum(lines[..i], AnyCredit())
        invariant forall j :: 0 <= j < i ==>
          OneSided(lines[j]) && HasAccount(accounts, lines[j].account) && !accounts[lines[j].account - 1].archived
      {
        var l := lines[i];
        if l.debit < 0 || l.credit < 0 {
          return Declined(Books.Invalid);
        }
        if (l.debit == 0) == (l.credit == 0) {
          return Declined(Books.Invalid);
        }
        if !HasAccount(accounts, l.account) || accounts[l.account - 1].archived {
          return Declined(Books.Invalid);
        }
        SumPrefix(lines, i, AnyDebit());
        SumPrefix(lines, i, AnyCredit());
        debit := debit + l.debit;
        credit := credit + l.credit;
      }
      assert lines[..|lines|] == lines;
      if debit != credit {
        return Declined(Books.Invalid);
      }
      if debit == 0 {
        return Declined(Books.Invalid);
      }
      entries := entries + [Entry(d, source, sourceId, reverses, lines)];
      return Accepted(|entries|);
    }

    method Reverse(id: Id, date: Option<Date>) returns (r: Answer)
      modifies this
      ensures Follows(old(View()), Books.Reverse(old(View()), id, date), View(), r)
    {
      if !(1 <= id <= |entries|) {
        return Declined(Books.NotFound);
      }
      var orig := entries[id - 1];
      var mirrored: seq<Line> := [];
      for i := 0 to |orig.lines|
        invariant unchanged(this)
        invariant mirrored == Mirror(orig.lines[..i])
      {
        assert orig.lines[..i + 1][..i] == orig.lines[..i];
        mirrored := mirrored + [Line(orig.lines[i].account, orig.lines[i].credit, orig.lines[i].debit)];
      }
      assert orig.lines[..|orig.lines|] == orig.lines;
      r := Post(date, orig.source, orig.sourceId, id, mirrored);
    }

    // ---- drafts ----

    /** Prices the lines one by one and accumulates the totals; stops at the first line it cannot price. */
    method PriceDraftLines(pricing: Pricing, input: seq<DocLine>) returns (r: Option<seq<DocLine>>, subtotal: Money, vatTotal: Money)
      ensures r == PriceLines(pricing, input)
      ensures r.Some? ==> subtotal == Sum(r.value, NetAmount()) && vatTotal == Sum(r.value, VatAmount())
    {
      var lines: seq<DocLine> := [];
      subtotal, vatTotal := 0, 0;
      for i := 0 to |input|
        invariant PriceLines(pricing, input[..i]) == Some(lines)
        invariant subtotal == Sum(lines, NetAmount()) && vatTotal == Sum(lines, VatAmount())
      {
        assert input[..i + 1][..i] == input[..i];
        var priced := PriceLine(pricing, input[i]);
        if priced.None? {
          PriceLinesFails(pricing, input, i);
          return None, 0, 0;
        }
        var l := priced.value;
        SumSnoc(lines, l, NetAmount());
        SumSnoc(lines, l, VatAmount());
        lines := lines + [l];
        subtotal := subtotal + l.net;
        vatTotal := vatTotal + l.vat;
      }
      assert input[..|input|] == input;
      return Some(lines), subtotal, vatTotal;
    }

    /** Normalises, validates and recomputes every derived amount of a draft. */
    method PrepareDraft(input: DocInput) returns (p: Books.Checked<Doc>)
      ensures p == Books.Prepare(View(), input)
    {
      var issueDate := input.issueDate.GetOr(today);
      var terms := if input.terms <= 0 then defaultTerms else input.terms;
      var dueDate := input.dueDate.GetOr(issueDate + terms);
      if input.client == 0 || dueDate < issueDate || input.lines == [] {
        return Books.Failed(Books.Invalid);
      }
      if input.reverseCharge && TrimSpace(input.customerVat) == "" {
        return Books.Failed(Books.Invalid);
      }
      p := PriceDraft(input, issueDate, dueDate, terms);
    }

    method PriceDraft(input: DocInput, issueDate: Date, dueDate: Date, terms: int) returns (p: Books.Checked<Doc>)
      ensures p == Books.PriceDraft(View(), input, issueDate, dueDate, terms)
    {
      var pricing := Books.PricingFor(View(), input.reverseCharge);
      if pricing.None? {
        return Books.Failed(Books.NotFound);
      }
      var lines, subtotal, vatTotal := PriceDraftLines(pricing.value, input.lines);
      if lines.None? {
        return Books.Failed(Books.Invalid);
      }
      return Books.Passed(Books.Assemble(input, issueDate, dueDate, terms, lines.value, subtotal, vatTotal));
    }

    method CreateDraft(input: DocInput) returns (r: Answer)
      modifies this
      ensures Follows(old(View()), Books.CreateDraft(old(View()), input), View(), r)
    {
      var p := PrepareDraft(input);
      if p.Failed? {
        return Declined(p.why);
      }
      if p.row.client !in clients {
        return Declined(Books.Invalid);
      }
      docs := docs + [Some(p.row)];
      return Accepted(|docs|);
    }

    method UpdateDraft(id: Id, input: DocInput) returns (r: Answer)
      modifies this
      ensures Follows(old(View()), Books.UpdateDraft(old(View()), id, input), View(), r)
    {
      var row := Books.Row(docs, id);
      if row.None? {
        return Declined(Books.NotFound);
      }
      var existing := row.value;
      if existing.status != Draft {
        return Declined(Books.Invalid);
      }
      var p := PrepareDraft(input.(kind := existing.kind));
      if p.Failed? {
        return Declined(p.why);
      }
      if p.row.client !in clients {
        return Declined(Books.Invalid);
      }
      var kept := p.row.(number := existing.number, paid := existing.paid, corrects := existing.corrects, entry := existing.entry);
      docs := docs[id - 1 := Some(kept)];
      return Accepted(id);
    }

    method DeleteDraft(id: Id) returns (r: Answer)
      modifies this
      ensures Follows(old(View()), Books.DeleteDraft(old(View()), id), View(), r)
    {
      var row := Books.Row(docs, id);
      if row.None? {
        return Declined(Books.NotFound);
      }
      if row.value.status != Draft {
        return Declined(Books.Invalid);
      }
      docs := docs[id - 1 := None];
      return Accepted(id);
    }

    method CreditNote(id: Id, lines: seq<DocLine>) returns (r: Answer)
      modifies this
      ensures Follows(old(View()), Books.RaiseCreditNote(old(View()), id, lines), View(), r)
    {
      var row := Books.Row(docs, id);
      if row.None? {
        return Declined(Books.NotFound);
      }
      var orig := row.value;
      if orig.kind != Invoice || orig.status == Draft || orig.status == Void {
        return Declined(Books.Invalid);
      }
      r := CreateDraft(Books.CreditInput(View(), id, orig, lines));
    }

    // ---- issuing ----

    /** Adds the income up by account, remembering the order the lines name the accounts in. */
    method GroupIncome(lines: seq<DocLine>) returns (order: seq<Id>, byAccount: map<Id, Money>)
      ensures order == IncomeOrder(lines)
      ensures forall a :: a in byAccount <==> a in order
      ensures forall a :: a in byAccount ==> byAccount[a] == Sum(lines, IncomeOf(a))
    {
      order, byAccount := [], map[];
      for i := 0 to |lines|
        invariant order == IncomeOrder(lines[..i])
        invariant forall a :: a in byAccount <==> a in order
        invariant forall a :: a in byAccount ==> byAccount[a] == Sum(lines[..i], IncomeOf(a))
      {
        assert lines[..i + 1][..i] == lines[..i];
        var l := lines[i];
        IncomeOrderIsExact(lines[..i], l.income);
        if l.income !in byAccount {
          order := order + [l.income];
          byAccount := byAccount[l.income := 0];
        }
        byAccount := byAccount[l.income := byAccount[l.income] + l.net];
      }
      assert lines[..|lines|] == lines;
    }

    /** Places receivable, income and tax on their sides, and checks the two sides agree. */
    method InvoicePostings(doc: Doc, ar: Id, vatAccount: Id) returns (r: Option<seq<Line>>)
      ensures r == if Balanced(Postings(doc, ar, vatAccount)) then Some(Postings(doc, ar, vatAccount)) else None
    {
      var order, byAccount := GroupIncome(doc.lines);
      var postings := [Posting(ar, Signed(doc.kind, doc.total), true)];
      for k := 0 to |order|
        invariant postings == [Posting(ar, Signed(doc.kind, doc.total), true)] + IncomePostings(order[..k], doc.lines, doc.kind)
      {
        assert order[..k + 1][..k] == order[..k];
        var a := order[k];
        assert a in order;
        postings := postings + [Posting(a, Signed(doc.kind, byAccount[a]), false)];
      }
      assert order[..|order|] == order;
      if doc.vat != 0 {
        postings := postings + [Posting(vatAccount, Signed(doc.kind, doc.vat), false)];
      }
      assert postings == Postings(doc, ar, vatAccount);
      var agrees := SidesAgree(postings);
      return if agrees then Some(postings) else None;
    }

    method SidesAgree(postings: seq<Line>) returns (agrees: bool)
      ensures agrees <==> Balanced(postings)
    {
      var debits, credits := 0, 0;
      for i := 0 to |postings|
        invariant debits == Sum(postings[..i], AnyDebit()) && credits == Sum(postings[..i], AnyCredit())
      {
        SumPrefix(postings, i, AnyDebit());
        SumPrefix(postings, i, AnyCredit());
        debits := debits + postings[i].debit;
        credits := credits + postings[i].credit;
      }
      assert postings[..|postings|] == postings;
      return debits == credits;
    }

    /** Reads a sequence and bumps it. */
    method AllocateNumber(kind: DocKind) returns (number: string)
      modifies this
      ensures View() == Books.BumpSequence(old(View()), kind)
      ensures number == Books.NumberFor(kind, Books.NextOf(old(View()), kind))
    {
      var next := Books.NextOf(View(), kind);
      if kind == DocKind.CreditNote {
        nextCreditNote := nextCreditNote + 1;
      } else {
        nextInvoice := nextInvoice + 1;
      }
      number := Books.NumberFor(kind, next);
    }

    /** The rows of an entry without the postings that carry nothing. */
    method DropZeros(postings: seq<Line>) returns (lines: seq<Line>)
      ensures lines == Nonzero(postings)
    {
      lines := [];
      for i := 0 to |postings|
        invariant lines == Nonzero(postings[..i])
      {
        assert postings[..i + 1][..i] == postings[..i];
        if !(postings[i].debit == 0 && postings[i].credit == 0) {
          lines := lines + [postings[i]];
        }
      }
      assert postings[..|postings|] == postings;
    }

    method Issue(id: Id) returns (r: Answer)
      modifies this
      ensures Follows(old(View()), Books.Issue(old(View()), id), View(), r)
    {
      var row := Books.Row(docs, id);
      if row.None? {
        return Declined(Books.NotFound);
      }
      var doc := row.value;
      if doc.status != Draft || doc.lines == [] {
        return Declined(Books.Invalid);
      }
      if Books.Locked(periods, doc.issueDate) {
        return Declined(Books.PeriodLocked);
      }
      var ar := FindKey(accounts, ArKey);
      var vatOut := FindKey(accounts, VatOutputKey);
      if ar.None? || (doc.vat != 0 && vatOut.None?) {
        return Declined(Books.NotFound);
      }
      var postings := InvoicePostings(doc, ar.value, vatOut.GetOr(0));
      if postings.None? {
        return Declined(Books.Invalid);
      }
      r := IssueInvoice(id, doc, postings.value);
    }

    method IssueInvoice(id: Id, doc: Doc, postings: seq<Line>) returns (r: Answer)
      requires Books.Row(docs, id) == Some(doc)
      modifies this
      ensures Follows(old(View()), Books.IssueInvoice(old(View()), id, doc, Nonzero(postings)), View(), r)
    {
      var lines := DropZeros(postings);
      if !RowsAccepted(accounts, lines) || Books.NumberTaken(docs, Books.NumberFor(doc.kind, Books.NextOf(View(), doc.kind))) {
        return Declined(Books.Rejected);
      }
      var number := AllocateNumber(doc.kind);
      entries := entries + [Entry(doc.issueDate, if doc.kind == DocKind.CreditNote then FromCreditNote else FromInvoice, id, 0, lines)];
      docs := docs[id - 1 := Some(doc.(number := number, status := Issued, entry := |entries|))];
      time := Books.FlagTime(time, doc);
      return Accepted(id);
    }

    method VoidInvoice(id: Id) returns (r: Answer)
      modifies this
      ensures Follows(old(View()), Books.VoidDoc(old(View()), id), View(), r)
    {
      var row := Books.Row(docs, id);
      if row.None? {
        return Declined(Books.NotFound);
      }
      var doc := row.value;
      if doc.status == Draft || doc.status == Void || doc.paid != 0 {
        return Declined(Books.Invalid);
      }
      if Books.Locked(periods, today) {
        return Declined(Books.PeriodLocked);
      }
      if doc.entry != 0 {
        r := Reverse(doc.entry, Some(today));
        if r.Declined? {
          return;
        }
      }
      docs := docs[id - 1 := Some(doc.(status := Void))];
      return Accepted(id);
    }

    // ---- payments ----

    method RecalcInvoicePayments(id: Id)
      modifies this`docs
      ensures docs == Books.Recalc(old(docs), payments, id)
      ensures Books.Row(old(docs), id).Some? && Books.Row(old(docs), id).value.Live() ==>
        var d, received := docs[id - 1].value, Sum(payments, Books.PaidFor(id));
        && d.paid == received
        && (d.status == Issued <==> received == 0)
        && (d.status == PartPaid <==> received != 0 && received < d.total)
        && (d.status == Paid <==> received != 0 && received >= d.total)
    {
      var row := Books.Row(docs, id);
      if row.Some? {
        var paid := 0;
        for i := 0 to |payments|
          invariant unchanged(this)
          invariant paid == Sum(payments[..i], Books.PaidFor(id))
        {
          SumPrefix(payments, i, Books.PaidFor(id));
          if payments[i].Some? && payments[i].value.invoice == id {
            paid := paid + payments[i].value.amount;
          }
        }
        assert payments[..|payments|] == payments;
        var doc := row.value.(paid := paid);
        docs := docs[id - 1 := Some(doc.(status := PaymentStatus(doc)))];
      }
    }

    method RecordPayment(input: Books.PaymentInput) returns (r: Answer)
      modifies this
      ensures Follows(old(View()), Books.RecordPayment(old(View()), input), View(), r)
    {
      var row := Books.Row(docs, input.invoice);
      if row.None? {
        return Declined(Books.Invalid);
      }
      var doc := row.value;
      if doc.status == Draft || doc.status == Void || doc.status == Paid {
        return Declined(Books.Invalid);
      }
      if input.amount <= 0 || input.amount > doc.Outstanding() {
        return Declined(Books.Invalid);
      }
      var paidOn := input.paidOn.GetOr(today);
      if Books.Locked(periods, paidOn) {
        return Declined(Books.PeriodLocked);
      }
      var deposit := if input.deposit == 0 then FindKey(accounts, BankKey) else Some(input.deposit);
      if deposit.None? {
        return Declined(Books.NotFound);
      }
      if !IsKind(accounts, deposit.value, Asset) {
        return Declined(Books.Invalid);
      }
      if FindKey(accounts, ArKey).None? {
        return Declined(Books.NotFound);
      }
      r := StorePayment(Books.Payment(input.invoice, paidOn, input.amount, deposit.value, |entries| + 1));
    }

    method StorePayment(p: Books.Payment) returns (r: Answer)
      modifies this
      ensures Follows(old(View()), Books.StorePayment(old(View()), p), View(), r)
    {
      var lines := Books.PaymentLines(p, Books.ArAccount(accounts));
      if !RowsAccepted(accounts, lines) {
        return Declined(Books.Rejected);
      }
      entries := entries + [Entry(p.paidOn, FromPayment, |payments| + 1, 0, lines)];
      payments := payments + [Some(p)];
      RecalcInvoicePayments(p.invoice);
      return Accepted(|payments|);
    }

    method DeletePayment(id: Id) returns (r: Answer)
      modifies this
      ensures Follows(old(View()), Books.DeletePayment(old(View()), id), View(), r)
    {
      var row := Books.Row(payments, id);
      if row.None? {
        return Declined(Books.NotFound);
      }
      var p := row.value;
      if Books.Locked(periods, p.paidOn) {
        return Declined(Books.PeriodLocked);
      }
      if p.entry != 0 {
        r := Reverse(p.entry, None);
        if r.Declined? {
          return;
        }
      }
      payments := payments[id - 1 := None];
      RecalcInvoicePayments(p.invoice);
      return Accepted(id);
    }

    // ---- expenses ----

    method RecordExpense(input: Books.ExpenseInput) returns (r: Answer)
      modifies this
      ensures Follows(old(View()), Books.RecordExpense(old(View()), input), View(), r)
    {
      var checked := CheckExpense(input);
      if checked.Failed? {
        return Declined(checked.why);
      }
      r := StoreExpense(checked.row);
    }

    method CheckExpense(input: Books.ExpenseInput) returns (c: Books.Checked<Books.ExpenseRow>)
      ensures c == Books.CheckExpense(View(), input)
    {
      var spentOn := input.spentOn.GetOr(today);
      if Books.Locked(periods, spentOn) {
        return Books.Failed(Books.PeriodLocked);
      }
      if (TrimSpace(input.vendor) == "" && TrimSpace(input.description) == "") || input.net <= 0 {
        return Books.Failed(Books.Invalid);
      }
      if !IsKind(accounts, input.account, Expense) && !IsKind(accounts, input.account, Asset) {
        return Books.Failed(Books.Invalid);
      }
      var paidFrom := if input.paidFrom == 0 then FindKey(accounts, BankKey) else Some(input.paidFrom);
      if paidFrom.None? {
        return Books.Failed(Books.NotFound);
      }
      if !IsKind(accounts, paidFrom.value, Asset) && !IsKind(accounts, paidFrom.value, Liability) {
        return Books.Failed(Books.Invalid);
      }
      var bp := input.rateBP;
      if input.rate != 0 {
        if !HasRate(rates, input.rate) {
          return Books.Failed(Books.Invalid);
        }
        bp := rates[input.rate - 1].bp;
      }
      var vat := VAT(input.net, bp);
      if input.billable && input.client == 0 {
        return Books.Failed(Books.Invalid);
      }
      if vat != 0 && input.reclaimable && FindKey(accounts, VatInputKey).None? {
        return Books.Failed(Books.NotFound);
      }
      return Books.Passed(Books.ExpenseRow(spentOn, input.account, paidFrom.value, input.net, input.rate, bp, vat, input.net + vat,
                                          input.reclaimable, input.billable, input.client, input.rebilled, |entries| + 1));
    }

    method StoreExpense(x: Books.ExpenseRow) returns (r: Answer)
      modifies this
      ensures Follows(old(View()), Books.StoreExpense(old(View()), x), View(), r)
    {
      var lines := Books.ExpenseLines(x, Books.VatInAccount(accounts));
      if !RowsAccepted(accounts, lines) {
        return Declined(Books.Rejected);
      }
      if x.vat < 0 || x.total < 0 {
        return Declined(Books.Invalid);
      }
      entries := entries + [Entry(x.spentOn, FromExpense, |expenses| + 1, 0, lines)];
      expenses := expenses + [Some(x)];
      return Accepted(|expenses|);
    }

    method DeleteExpense(id: Id) returns (r: Answer)
      modifies this
      ensures Follows(old(View()), Books.DeleteExpense(old(View()), id), View(), r)
    {
      var row := Books.Row(expenses, id);
      if row.None? {
        return Declined(Books.NotFound);
      }
      var x := row.value;
      if x.rebilled != 0 {
        return Declined(Books.Invalid);
      }
      if Books.Locked(periods, x.spentOn) {
        return Declined(Books.PeriodLocked);
      }
      if x.entry != 0 {
        r := Reverse(x.entry, None);
        if r.Declined? {
          return;
        }
      }
      expenses := expenses[id - 1 := None];
      return Accepted(id);
    }

    // ---- owner funding ----

    method RecordFunding(input: Books.FundingInput) returns (r: Answer)
      modifies this
      ensures Follows(old(View()), Books.RecordFunding(old(View()), input), View(), r)
    {
      var checked := CheckFunding(input);
      if checked.Failed? {
        return Declined(checked.why);
      }
      r := StoreFunding(checked.row);
    }

    method CheckFunding(input: Books.FundingInput) returns (c: Books.Checked<Books.Funding>)
      ensures c == Books.CheckFunding(View(), input)
    {
      if input.amount <= 0 {
        return Books.Failed(Books.Invalid);
      }
      var receivedOn := input.receivedOn.GetOr(today);
      if Books.Locked(periods, receivedOn) {
        return Books.Failed(Books.PeriodLocked);
      }
      var cash := if input.cash == 0 then FindKey(accounts, BankKey) else Some(input.cash);
      if cash.None? {
        return Books.Failed(Books.NotFound);
      }
      if !IsKind(accounts, cash.value, Asset) {
        return Books.Failed(Books.Invalid);
      }
      var owner := Books.OwnerAccount(View(), input.kind, input.owner);
      if owner.Failed? {
        return Books.Failed(owner.why);
      }
      if input.kind == Books.Repayment {
        var outstanding := Books.LoanBalance(View(), receivedOn);
        if outstanding <= 0 || input.amount > outstanding {
          return Books.Failed(Books.Invalid);
        }
      }
      return Books.Passed(Books.Funding(receivedOn, input.kind, input.amount, cash.value, owner.row, |entries| + 1));
    }

    method StoreFunding(f: Books.Funding) returns (r: Answer)
      modifies this
      ensures Follows(old(View()), Books.StoreFunding(old(View()), f), View(), r)
    {
      var lines := Books.FundingLines(f);
      if !RowsAccepted(accounts, lines) {
        return Declined(Books.Rejected);
      }
      entries := entries + [Entry(f.receivedOn, FromFunding, |fundings| + 1, 0, lines)];
      fundings := fundings + [Some(f)];
      return Accepted(|fundings|);
    }

    method DeleteFunding(id: Id) returns (r: Answer)
      modifies this
      ensures Follows(old(View()), Books.DeleteFunding(old(View()), id), View(), r)
    {
      var row := Books.Row(fundings, id);
      if row.None? {
        return Declined(Books.NotFound);
      }
      var f := row.value;
      if Books.Locked(periods, f.receivedOn) {
        return Declined(Books.PeriodLocked);
      }
      if f.kind == Books.Loan && Books.LoanBalance(View(), today) < f.amount {
        return Declined(Books.Invalid);
      }
      if f.entry != 0 {
        r := Reverse(f.entry, None);
        if r.Declined? {
          return;
        }
      }
      fundings := fundings[id - 1 := None];
      return Accepted(id);
    }

    // ---- billing time ----

    method UnbilledTime(f: Books.TimeFilter) returns (ids: seq<Id>)
      ensures ids == Books.Unbilled(View(), f)
    {
      var order := Books.BillingOrder(View());
      ids := [];
      for t := 1 to |time| + 1
        invariant ids == Ordered(t - 1, Books.Offered(View(), f), order)
      {
        if Books.IsUnbilled(View(), f, t) {
          ids := Insert(ids, t, order);
        }
      }
    }

    method SpansClients(ids: seq<Id>) returns (mixed: bool)
      requires Books.AllLogged(View(), ids)
      ensures mixed <==> exists i :: 0 <= i < |ids| && Books.Logged(View(), ids, i).client != Books.Logged(View(), ids, 0).client
    {
      var first := Books.Logged(View(), ids, 0);
      for i := 0 to |ids|
        invariant forall j :: 0 <= j < i ==> Books.Logged(View(), ids, j).client == first.client
      {
        if Books.Logged(View(), ids, i).client != first.client {
          return true;
        }
      }
      return false;
    }

    method HasZeroRate(ids: seq<Id>) returns (found: bool)
      requires Books.AllLogged(View(), ids)
      ensures found <==> exists i :: 0 <= i < |ids| && Books.Logged(View(), ids, i).rate == 0
    {
      for i := 0 to |ids|
        invariant forall j :: 0 <= j < i ==> Books.Logged(View(), ids, j).rate != 0
      {
        if Books.Logged(View(), ids, i).rate == 0 {
          return true;
        }
      }
      return false;
    }

    method DraftFromUnbilledTime(f: Books.TimeFilter) returns (r: Answer)
      modifies this
      ensures Follows(old(View()), Books.BillTime(old(View()), f), View(), r)
    {
      if f.client == 0 && f.engagement == 0 {
        return Declined(Books.Invalid);
      }
      var ids := UnbilledTime(f);
      if ids == [] {
        return Declined(Books.Invalid);
      }
      var mixed := SpansClients(ids);
      if mixed {
        return Declined(Books.Invalid);
      }
      var unpriced := HasZeroRate(ids);
      if unpriced {
        return Declined(Books.Invalid);
      }
      var income := FindKey(accounts, SalesKey);
      if income.None? {
        return Declined(Books.NotFound);
      }
      r := CreateDraft(Books.TimeInput(View(), ids, income.value));
    }

    // ---- reports ----

    /** Every account with its debit and credit totals over a window, by code. */
    method Balances(w: Window) returns (rows: seq<Balance>)
      ensures AreBalances(rows, accounts, entries, w)
    {
      rows := [];
      var ids := ByCode(accounts);
      for i := 0 to |ids|
        invariant |rows| == i
        invariant forall k :: 0 <= k < i ==> rows[k] == BalanceOf(accounts, entries, w, ids[k])
      {
        rows := rows + [BalanceOf(accounts, entries, w, ids[i])];
      }
    }

    method TrialBalance(w: Window) returns (tb: Trial)
      ensures tb.rows == Listing(Cell(accounts, entries, w, NetColumn()), ByCode(accounts))
      ensures tb.totalDebit == ColumnTotal(accounts, entries, w, OnDebitSide())
      ensures tb.totalCredit == ColumnTotal(accounts, entries, w, OnCreditSide())
      ensures tb.totalDebit == SumIds(|accounts|, DebitExcess(entries, w)) && tb.totalCredit == SumIds(|accounts|, CreditExcess(entries, w))
      ensures GoodJournal(accounts, entries) ==> tb.balanced
    {
      var balances := Balances(w);
      tb := Reports.TrialBalance(balances);
      ReadOffTheJournal(balances, accounts, entries, w, NetColumn());
      ReadOffTheJournal(balances, accounts, entries, w, OnDebitSide());
      ReadOffTheJournal(balances, accounts, entries, w, OnCreditSide());
      TrialBalanceAgreesWhenGood(accounts, entries, w);
      SidesAreExcesses(accounts, entries, w);
    }

    method ProfitAndLoss(w: Window) returns (pl: Profit)
      ensures pl.income == Listing(Cell(accounts, entries, w, HeldIn(Income)), ByCode(accounts))
      ensures pl.spending == Listing(Cell(accounts, entries, w, HeldIn(Expense)), ByCode(accounts))
      ensures pl.totalIncome == TotalHeld(View(), w, Income) && pl.totalExpenses == TotalHeld(View(), w, Expense)
      ensures pl.netProfit == NetProfit(View(), w)
      ensures ShowsExcess(pl.income, CreditLessDebit(accounts, entries, w, Income))
      ensures ShowsExcess(pl.spending, DebitLessCredit(accounts, entries, w, Expense))
      ensures pl.netProfit
           == SumIds(|accounts|, CreditLessDebit(accounts, entries, w, Income)) - SumIds(|accounts|, DebitLessCredit(accounts, entries, w, Expense))
    {
      var balances := Balances(w);
      pl := Reports.ProfitAndLoss(balances);
      ReadOffTheJournal(balances, accounts, entries, w, HeldIn(Income));
      ReadOffTheJournal(balances, accounts, entries, w, HeldIn(Expense));
      RowsAreExcesses(accounts, entries, w, Income);
      RowsAreExcesses(accounts, entries, w, Expense);
      ProfitIsIncomeLessExpense(View(), w);
    }

    /** The position at a date; earnings count from the beginning of the books. */
    method BalanceSheet(asOf: Option<Date>) returns (sheet: Sheet)
      ensures var w := UpTo(asOf.GetOr(today));
              && sheet.assets == Listing(Cell(accounts, entries, w, HeldIn(Asset)), ByCode(accounts))
              && sheet.liabilities == Listing(Cell(accounts, entries, w, HeldIn(Liability)), ByCode(accounts))
              && sheet.equity == Listing(Cell(accounts, entries, w, HeldIn(Equity)), ByCode(accounts))
              && sheet.totalAssets == TotalHeld(View(), w, Asset)
              && sheet.totalLiabilities == TotalHeld(View(), w, Liability)
              && sheet.totalEquity == TotalHeld(View(), w, Equity)
              && sheet.currentEarnings == NetProfit(View(), w)
      ensures SheetShows(sheet, accounts, entries, UpTo(asOf.GetOr(today)))
      ensures GoodJournal(accounts, entries) ==> sheet.balanced
    {
      var w := UpTo(asOf.GetOr(today));
      var balances := Balances(w);
      sheet := Reports.BalanceSheet(balances);
      forall which {
        ReadOffTheJournal(balances, accounts, entries, w, HeldIn(which));
      }
      SheetInDebitsAndCredits(sheet, View(), w);
      BalanceSheetAgreesWhenGood(accounts, entries, w);
    }

    // ---- the VAT return ----

    method OutputTax(w: Window) returns (tax: Money)
      ensures tax == ReturnOut(View(), w)
    {
      tax := 0;
      for i := 0 to |docs|
        invariant tax == Sum(docs[..i], LineTax(w))
      {
        SumPrefix(docs, i, LineTax(w));
        if docs[i].Some? && docs[i].value.Live() && w.Holds(docs[i].value.issueDate) {
          var onLines := 0;
          var lines := docs[i].value.lines;
          for j := 0 to |lines|
            invariant onLines == Sum(lines[..j], VatAmount())
          {
            SumPrefix(lines, j, VatAmount());
            onLines := onLines + lines[j].vat;
          }
          assert lines[..|lines|] == lines;
          tax := tax + Signed(docs[i].value.kind, onLines);
        }
      }
      assert docs[..|docs|] == docs;
    }

    method NetSales(w: Window, box: VatKind) returns (net: Money)
      ensures net == ReturnSales(View(), w, box)
    {
      net := 0;
      for i := 0 to |docs|
        invariant net == Sum(docs[..i], SalesIn(w, rates, box))
      {
        SumPrefix(docs, i, SalesIn(w, rates, box));
        if docs[i].Some? && docs[i].value.Live() && w.Holds(docs[i].value.issueDate) {
          var onLines := 0;
          var lines := docs[i].value.lines;
          for j := 0 to |lines|
            invariant onLines == Sum(lines[..j], NetIn(rates, box))
          {
            SumPrefix(lines, j, NetIn(rates, box));
            if BoxOf(TreatmentOf(rates, lines[j].rate)) == box {
              onLines := onLines + lines[j].net;
            }
          }
          assert lines[..|lines|] == lines;
          net := net + Signed(docs[i].value.kind, onLines);
        }
      }
      assert docs[..|docs|] == docs;
    }

    method Purchases(w: Window) returns (net: Money, tax: Money)
      ensures net == ReturnPurchases(View(), w) && tax == ReturnIn(View(), w)
    {
      net, tax := 0, 0;
      for i := 0 to |expenses|
        invariant net == Sum(expenses[..i], SpentNet(w)) && tax == Sum(expenses[..i], Reclaimed(w))
      {
        SumPrefix(expenses, i, SpentNet(w));
        SumPrefix(expenses, i, Reclaimed(w));
        if expenses[i].Some? && w.Holds(expenses[i].value.spentOn) {
          net := net + expenses[i].value.net;
          if expenses[i].value.reclaimable {
            tax := tax + expenses[i].value.vat;
          }
        }
      }
      assert expenses[..|expenses|] == expenses;
    }

    /** The figures of a return, and whether the control accounts tell a different story. */
    method VATReturnSummary(from: Date, to: Date) returns (r: Option<VatReturn>)
      ensures r.None? <==> to < from
      ensures r.Some? ==>
        var w, v := Window(Some(from), Some(to)), r.value;
        && v.outputVat == ReturnOut(View(), w) && v.inputVat == ReturnIn(View(), w)
        && v.netDue == v.outputVat - v.inputVat
        && v.purchases == ReturnPurchases(View(), w)
        && v.standard == ReturnSales(View(), w, Standard) && v.zero == ReturnSales(View(), w, Zero)
        && v.exempt == ReturnSales(View(), w, Exempt) && v.reverse == ReturnSales(View(), w, ReverseCharge)
        && (Sound(View()) ==> v.standard + v.zero + v.exempt + v.reverse == Sum(docs, SignedSubtotal(w)))
        && (v.mismatch <==> HasMismatchNote(View(), w))
    {
      if to < from {
        return None;
      }
      var w := Window(Some(from), Some(to));
      var output := OutputTax(w);
      var purchases, input := Purchases(w);
      var standard := NetSales(w, Standard);
      var zero := NetSales(w, Zero);
      var exempt := NetSales(w, Exempt);
      var reverse := NetSales(w, ReverseCharge);
      var ledgerOut, ledgerIn := ControlOut(View(), w), ControlIn(View(), w);
      if Sound(View()) {
        BoxesAddUp(View(), w);
      }
      return Some(VatReturn(standard, zero, exempt, reverse, purchases, output, input, output - input, ledgerOut != output || ledgerIn != input));
    }
  }
}
