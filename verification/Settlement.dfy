/**
Payments against a document: exactly which are taken, what each does and undoes, and what the
status of a document tells about the money received on it.
*/
module Settlement {
  import opened Options
  import opened Sums
  import opened Amounts
  import opened Ledger
  import opened Documents
  import opened Books
  import opened Journal
  import opened Soundness

  /** The account money moves through: the one named, or the bank when none is. */
  function MoneyAccount(accounts: seq<Account>, named: Id): Id {
    if named == 0 then FindKey(accounts, BankKey).GetOr(0) else named
  }

  lemma StatusOfSound(s: State, id: Id)
    requires Settled(s) && Row(s.docs, id).Some? && Row(s.docs, id).value.Live()
    ensures var d, received := Row(s.docs, id).value, Sum(s.payments, PaidFor(id));
            && d.paid == received >= 0
            && (d.status == Issued <==> received == 0)
            && (d.status == PartPaid <==> 0 < received < d.total)
            && (d.status == Paid <==> 0 < received == d.total)
  {
    AmountsArePositive(s);
    SumNonNegative(s.payments, PaidFor(id));
    assert PaidSound(s.docs[id - 1].value, Sum(s.payments, PaidFor(id - 1 + 1)));
  }

  /**
  In every reachable state the status of a live document tells what was received on it: issued
  when nothing was, partly paid when something short of the total was, paid when the total was.
  */
  lemma StatusTellsWhatWasReceived(s: State, steps: seq<Step>, id: Id)
    requires Fresh(s) && AllClean(steps)
    requires Row(Run(s, steps).docs, id).Some? && Row(Run(s, steps).docs, id).value.Live()
    ensures var t := Run(s, steps);
            var d, received := Row(t.docs, id).value, Sum(t.payments, PaidFor(id));
            && d.paid == received >= 0
            && (d.status == Issued <==> received == 0)
            && (d.status == PartPaid <==> 0 < received < d.total)
            && (d.status == Paid <==> 0 < received == d.total)
  {
    ReachableIsSound(s, steps);
    StatusOfSound(Run(s, steps), id);
  }

  // ---- taking a payment ----

  /** Exactly which payments are taken: up to what is still missing on a live document, on an open date, into an asset account. */
  lemma WhenPaymentIsTaken(s: State, input: PaymentInput)
    requires Sound(s)
    ensures RecordPayment(s, input).Done? <==>
      && Row(s.docs, input.invoice).Some? && Row(s.docs, input.invoice).value.Live()
      && 0 < input.amount <= Row(s.docs, input.invoice).value.total - Sum(s.payments, PaidFor(input.invoice))
      && !Locked(s.periods, input.paidOn.GetOr(s.today))
      && IsKind(s.accounts, MoneyAccount(s.accounts, input.deposit), Asset)
      && FindKey(s.accounts, ArKey).Some?
  {
    if Row(s.docs, input.invoice).Some? && Row(s.docs, input.invoice).value.Live() {
      StatusOfSound(s, input.invoice);
    }
  }

  lemma PaymentRow(s: State, input: PaymentInput, t: State, id: Id)
    requires RecordPayment(s, input) == Done(t, id)
    ensures id == |s.payments| + 1
    ensures var p := Payment(input.invoice, input.paidOn.GetOr(s.today), input.amount, MoneyAccount(s.accounts, input.deposit), |s.entries| + 1);
            && t.payments == s.payments + [Some(p)]
            && t.entries == s.entries + [Entry(p.paidOn, FromPayment, id, 0, PaymentLines(p, ArAccount(s.accounts)))]
            && t == s.(entries := t.entries, payments := t.payments, docs := Recalc(s.docs, t.payments, input.invoice))
    ensures Row(s.docs, input.invoice).Some? && Row(s.docs, input.invoice).value.Live() && input.amount > 0
  {
  }

  /** The document as it stands once this much more, or less, has been received on it. */
  lemma RecalcMovesPaid(docs: seq<Option<Doc>>, payments: seq<Option<Payment>>, id: Id)
    requires Row(docs, id).Some? && Row(docs, id).value.Live()
    requires 0 <= Sum(payments, PaidFor(id)) <= Row(docs, id).value.total
    ensures var d, received := Row(docs, id).value, Sum(payments, PaidFor(id));
            Recalc(docs, payments, id) == docs[id - 1 := Some(d.(paid := received, status :=
              if received == 0 then Issued else if received == d.total then Paid else PartPaid))]
  {
  }

  lemma TakenSettles(s: State, docs: seq<Option<Doc>>, p: Payment)
    requires Settled(s) && Row(s.docs, p.invoice).Some? && Row(s.docs, p.invoice).value.Live()
    requires 0 < p.amount <= Row(s.docs, p.invoice).value.Outstanding() && docs == Recalc(s.docs, s.payments + [Some(p)], p.invoice)
    ensures var d, received := Row(s.docs, p.invoice).value, Row(s.docs, p.invoice).value.paid + p.amount;
            docs == s.docs[p.invoice - 1 := Some(d.(paid := received, status := if received == d.total then Paid else PartPaid))]
  {
    StatusOfSound(s, p.invoice);
    SumSnoc(s.payments, Some(p), PaidFor(p.invoice));
    RecalcMovesPaid(s.docs, s.payments + [Some(p)], p.invoice);
  }

  /** A payment taken raises what its document has received by its amount, and touches no other document. */
  lemma PaymentSettles(s: State, input: PaymentInput, t: State, id: Id)
    requires Sound(s) && RecordPayment(s, input) == Done(t, id)
    ensures Row(s.docs, input.invoice).Some?
    ensures var d, received := Row(s.docs, input.invoice).value, Row(s.docs, input.invoice).value.paid + input.amount;
            t.docs == s.docs[input.invoice - 1 := Some(d.(paid := received, status := if received == d.total then Paid else PartPaid))]
  {
    var p := PaymentMovesRows(s, input);
    TakenSettles(s, t.docs, p);
  }

  /** The money moves from receivables to the account it was paid into, on the day it was paid, and the row remembers it. */
  lemma PaymentMovesMoney(s: State, input: PaymentInput, t: State, id: Id, a: Id)
    requires RecordPayment(s, input) == Done(t, id)
    ensures NewEntry(s, t).Some?
    ensures var e, into := NewEntry(s, t).value, MoneyAccount(s.accounts, input.deposit);
            && t.entries == s.entries + [e] && e.date == input.paidOn.GetOr(s.today) && e.sourceId == id == |t.payments|
            && t.payments[..|s.payments|] == s.payments
            && t.payments[|s.payments|] == Some(Payment(input.invoice, e.date, input.amount, into, |t.entries|))
            && NetOn(e.lines, a) == (if a == into then input.amount else 0) - if Some(a) == FindKey(s.accounts, ArKey) then input.amount else 0
  {
    PaymentRow(s, input, t, id);
    TwoLinesBalance(MoneyAccount(s.accounts, input.deposit), ArAccount(s.accounts), input.amount);
  }

  lemma TakenBackUnsettles(s: State, docs: seq<Option<Doc>>, id: Id, p: Payment)
    requires Settled(s) && Row(s.payments, id) == Some(p) && docs == Recalc(s.docs, s.payments[id - 1 := None], p.invoice)
    ensures Row(s.docs, p.invoice).Some?
    ensures var d := Row(s.docs, p.invoice).value;
            docs == s.docs[p.invoice - 1 := Some(d.(paid := d.paid - p.amount, status := if d.paid == p.amount then Issued else PartPaid))]
  {
    AmountsArePositive(s);
    assert s.payments[id - 1].Some? && PaymentSound(s.accounts, s.entries, s.payments[id - 1].value);
    StatusOfSound(s, p.invoice);
    RemovedPaymentCounts(s.payments, id, p, p.invoice);
    SumNonNegative(s.payments[id - 1 := None], PaidFor(p.invoice));
    RecalcMovesPaid(s.docs, s.payments[id - 1 := None], p.invoice);
  }

  /** A payment deleted lowers what its document has received by its amount. */
  lemma DeletionUnsettles(s: State, id: Id, t: State)
    requires Sound(s) && DeletePayment(s, id) == Done(t, id)
    ensures Row(s.payments, id).Some? && Row(s.docs, Row(s.payments, id).value.invoice).Some?
    ensures var p := Row(s.payments, id).value;
            var d := Row(s.docs, p.invoice).value;
            && t.payments == s.payments[id - 1 := None]
            && t.docs == s.docs[p.invoice - 1 :=
                 Some(d.(paid := d.paid - p.amount, status := if d.paid == p.amount then Issued else PartPaid))]
  {
    var p := DeletionMovesRows(s, id);
    TakenBackUnsettles(s, t.docs, id, p);
  }
}
