/**
The books as a state machine: every operation the accounting service offers, as a function from
one state to the next or to a refusal. A refused operation leaves the state as it was.

Tables of rows that can be deleted are sequences of optional rows. The id of a row is its
position counted from 1, so an id is never given out twice.
*/
module Books {
  import opened Options
  import opened Sums
  import opened Ordering
  import opened Text
  import opened Amounts
  import opened Ledger
  import opened Documents

  datatype Period = Period(startsOn: Date, endsOn: Date, locked: bool)

  datatype Payment = Payment(invoice: Id, paidOn: Date, amount: Money, deposit: Id, entry: Id)

  datatype PaymentInput = PaymentInput(invoice: Id, paidOn: Option<Date>, amount: Money, deposit: Id)

  datatype ExpenseRow = ExpenseRow(
    spentOn: Date, account: Id, paidFrom: Id, net: Money, rate: Id, rateBP: int, vat: Money, total: Money,
    reclaimable: bool, billable: bool, client: Id, rebilled: Id, entry: Id)

  datatype ExpenseInput = ExpenseInput(
    spentOn: Option<Date>, vendor: string, description: string, account: Id, paidFrom: Id, net: Money,
    rate: Id, rateBP: int, reclaimable: bool, billable: bool, client: Id, rebilled: Id)

  datatype FundingKind = Capital | Loan | Repayment

  datatype Funding = Funding(receivedOn: Date, kind: FundingKind, amount: Money, cash: Id, owner: Id, entry: Id)

  datatype FundingInput = FundingInput(receivedOn: Option<Date>, kind: FundingKind, amount: Money, cash: Id, owner: Id)

  datatype TimeEntry = TimeEntry(
    billable: bool, invoiced: bool, engagement: Id, client: Id, date: Date, hours: int, rate: Money)

  datatype TimeFilter = TimeFilter(client: Id, engagement: Id, upTo: Option<Date>)

  datatype State = State(
    today: Date,
    accounts: seq<Account>,
    entries: seq<Entry>,
    periods: seq<Period>,
    rates: seq<VatRate>,
    defaultTerms: int,
    defaultRate: Id,
    nextInvoice: nat,
    nextCreditNote: nat,
    docs: seq<Option<Doc>>,
    payments: seq<Option<Payment>>,
    expenses: seq<Option<ExpenseRow>>,
    fundings: seq<Option<Funding>>,
    clients: set<Id>,
    time: seq<Option<TimeEntry>>)

  datatype Refusal = NotFound | Invalid | PeriodLocked | Rejected

  datatype Checked<T> = Passed(row: T) | Failed(why: Refusal)

  datatype Outcome = Done(state: State, id: Id) | Refused(why: Refusal)

  /** The row with this id, if there is one. */
  function Row<T>(table: seq<Option<T>>, id: Id): Option<T> {
    if 1 <= id <= |table| then table[id - 1] else None
  }

  // ---- periods ----

  predicate Locked(periods: seq<Period>, d: Date) {
    exists i :: 0 <= i < |periods| && periods[i].locked && periods[i].startsOn <= d <= periods[i].endsOn
  }

  function SavePeriod(s: State, id: Id, p: Period): Outcome {
    if p.endsOn < p.startsOn then Refused(Invalid)
    else if id == 0 then Done(s.(periods := s.periods + [p]), |s.periods| + 1)
    else if 1 <= id <= |s.periods| then Done(s.(periods := s.periods[id - 1 := p]), id)
    else Done(s, id)
  }

  // ---- accounts, rates and settings ----

  predicate CodeTaken(accounts: seq<Account>, code: string, except: Id) {
    exists i :: 0 <= i < |accounts| && i + 1 != except && accounts[i].code == code
  }

  /** `AccountHasPostings`: some journal row names the account. */
  predicate HasPostings(entries: seq<Entry>, a: Id) {
    exists i, j :: 0 <= i < |entries| && 0 <= j < |entries[i].lines| && entries[i].lines[j].account == a
  }

  function CreateAccount(s: State, a: Account): Outcome {
    var code, name := TrimSpace(a.code), TrimSpace(a.name);
    if code == "" || name == "" || CodeTaken(s.accounts, code, 0) then Refused(Invalid)
    else Done(s.(accounts := s.accounts + [Account(code, name, a.kind, NoKey, a.archived)]), |s.accounts| + 1)
  }

  function UpdateAccount(s: State, id: Id, a: Account): Outcome {
    var code, name := TrimSpace(a.code), TrimSpace(a.name);
    if !HasAccount(s.accounts, id) then Refused(NotFound)
    else if code == "" || name == "" then Refused(Invalid)
    else if a.kind != s.accounts[id - 1].kind && HasPostings(s.entries, id) then Refused(Invalid)
    else if CodeTaken(s.accounts, code, id) then Refused(Invalid)
    else Done(s.(accounts := s.accounts[id - 1 := Account(code, name, a.kind, s.accounts[id - 1].key, a.archived)]), id)
  }

  function ArchiveAccount(s: State, id: Id, archived: bool): Outcome {
    if !HasAccount(s.accounts, id) then Refused(NotFound)
    else if archived && s.accounts[id - 1].key != NoKey then Refused(Invalid)
    else Done(s.(accounts := s.accounts[id - 1 := s.accounts[id - 1].(archived := archived)]), id)
  }

  function SaveRate(s: State, id: Id, v: VatRate): Outcome {
    if v.bp < 0 || v.bp > 10000 then Refused(Invalid)
    else if (v.kind == Zero || v.kind == Exempt || v.kind == ReverseCharge) && v.bp != 0 then Refused(Invalid)
    else if id == 0 then Done(s.(rates := s.rates + [v]), |s.rates| + 1)
    else if !HasRate(s.rates, id) then Refused(NotFound)
    else Done(s.(rates := s.rates[id - 1 := v]), id)
  }

  function SaveSettings(s: State, terms: int, rate: Id): Outcome {
    if terms < 0 || terms > 365 || (rate != 0 && !HasRate(s.rates, rate)) then Refused(Invalid)
    else Done(s.(defaultTerms := terms, defaultRate := rate), 1)
  }

  // ---- the journal ----

  predicate Postable(accounts: seq<Account>, lines: seq<Line>) {
    && |lines| >= 2
    && (forall i :: 0 <= i < |lines| ==>
          OneSided(lines[i]) && HasAccount(accounts, lines[i].account) && !accounts[lines[i].account - 1].archived)
    && Balanced(lines)
    && Sum(lines, AnyDebit()) != 0
  }

  function AddEntry(s: State, e: Entry): State {
    s.(entries := s.entries + [e])
  }

  function Post(s: State, date: Option<Date>, source: Source, sourceId: Id, reverses: Id, lines: seq<Line>): Outcome {
    var d := date.GetOr(s.today);
    if Locked(s.periods, d) then Refused(PeriodLocked)
    else if !Postable(s.accounts, lines) then Refused(Invalid)
    else Done(AddEntry(s, Entry(d, source, sourceId, reverses, lines)), |s.entries| + 1)
  }

  function Reverse(s: State, id: Id, date: Option<Date>): Outcome {
    if !(1 <= id <= |s.entries|) then Refused(NotFound)
    else
      var e := s.entries[id - 1];
      Post(s, date, e.source, e.sourceId, id, Mirror(e.lines))
  }

  // ---- drafts ----

  function FirstRate(rates: seq<VatRate>, kind: VatKind): Option<Id> {
    if rates == [] then None
    else
      var earlier := FirstRate(rates[..|rates| - 1], kind);
      var last := rates[|rates| - 1];
      if earlier.Some? then earlier
      else if last.kind == kind && !last.archived then Some(|rates|)
      else None
  }

  /** What line pricing reads from the books, when the accounts and rates it needs exist. */
  function PricingFor(s: State, reverseCharge: bool): Option<Pricing> {
    var income := FindKey(s.accounts, SalesKey);
    var reverse := if reverseCharge then FirstRate(s.rates, ReverseCharge) else None;
    if income.None? || (reverseCharge && reverse.None?) then None
    else Some(Pricing(s.accounts, s.rates, s.defaultRate, income.value, reverse))
  }

  function Prepare(s: State, input: DocInput): Checked<Doc> {
    var issueDate := input.issueDate.GetOr(s.today);
    var terms := if input.terms <= 0 then s.defaultTerms else input.terms;
    var dueDate := input.dueDate.GetOr(issueDate + terms);
    if input.client == 0 || dueDate < issueDate || input.lines == [] then Failed(Invalid)
    else if input.reverseCharge && TrimSpace(input.customerVat) == "" then Failed(Invalid)
    else PriceDraft(s, input, issueDate, dueDate, terms)
  }

  function PriceDraft(s: State, input: DocInput, issueDate: Date, dueDate: Date, terms: int): Checked<Doc> {
    match PricingFor(s, input.reverseCharge)
    case None => Failed(NotFound)
    case Some(pricing) =>
      match PriceLines(pricing, input.lines)
      case None => Failed(Invalid)
      case Some(lines) =>
        Passed(Assemble(input, issueDate, dueDate, terms, lines, Sum(lines, NetAmount()), Sum(lines, VatAmount())))
  }

  function Assemble(input: DocInput, issueDate: Date, dueDate: Date, terms: int, lines: seq<DocLine>, subtotal: Money, vat: Money): Doc {
    Doc(input.kind, "", input.client, input.engagement, Draft, issueDate, dueDate, terms,
        subtotal, vat, subtotal + vat, input.paid, input.reverseCharge,
        TrimSpace(input.customerVat), input.corrects, input.entry, lines)
  }

  function CreateDraft(s: State, input: DocInput): Outcome {
    match Prepare(s, input)
    case Failed(why) => Refused(why)
    case Passed(doc) =>
      if doc.client !in s.clients then Refused(Invalid)
      else Done(s.(docs := s.docs + [Some(doc)]), |s.docs| + 1)
  }

  function UpdateDraft(s: State, id: Id, input: DocInput): Outcome {
    match Row(s.docs, id)
    case None => Refused(NotFound)
    case Some(prior) =>
      if prior.status != Draft then Refused(Invalid)
      else
        match Prepare(s, input.(kind := prior.kind))
        case Failed(why) => Refused(why)
        case Passed(doc) =>
          if doc.client !in s.clients then Refused(Invalid)
          else
            var kept := doc.(number := prior.number, paid := prior.paid, corrects := prior.corrects, entry := prior.entry);
            Done(s.(docs := s.docs[id - 1 := Some(kept)]), id)
  }

  function DeleteDraft(s: State, id: Id): Outcome {
    match Row(s.docs, id)
    case None => Refused(NotFound)
    case Some(prior) =>
      if prior.status != Draft then Refused(Invalid)
      else Done(s.(docs := s.docs[id - 1 := None]), id)
  }

  function CreditInput(s: State, id: Id, orig: Doc, lines: seq<DocLine>): DocInput {
    DocInput(CreditNote, orig.client, orig.engagement, Some(s.today), None, orig.terms, orig.reverseCharge,
             orig.customerVat, id, 0, 0, if lines == [] then Unlinked(orig.lines) else lines)
  }

  function RaiseCreditNote(s: State, id: Id, lines: seq<DocLine>): Outcome {
    match Row(s.docs, id)
    case None => Refused(NotFound)
    case Some(orig) =>
      if orig.kind != Invoice || orig.status == Draft || orig.status == Void then Refused(Invalid)
      else CreateDraft(s, CreditInput(s, id, orig, lines))
  }

  // ---- issuing and voiding ----

  function NumberFor(kind: DocKind, n: int): string {
    (if kind == CreditNote then "CN-" else "INV-") + FormatInt(n, 4)
  }

  function NextOf(s: State, kind: DocKind): nat {
    if kind == CreditNote then s.nextCreditNote else s.nextInvoice
  }

  function BumpSequence(s: State, kind: DocKind): State {
    if kind == CreditNote then s.(nextCreditNote := s.nextCreditNote + 1) else s.(nextInvoice := s.nextInvoice + 1)
  }

  predicate NumberTaken(docs: seq<Option<Doc>>, number: string) {
    exists i :: 0 <= i < |docs| && docs[i].Some? && docs[i].value.number == number
  }

  function ArAccount(accounts: seq<Account>): Id {
    FindKey(accounts, ArKey).GetOr(0)
  }

  function VatOutAccount(accounts: seq<Account>): Id {
    FindKey(accounts, VatOutputKey).GetOr(0)
  }

  function VatInAccount(accounts: seq<Account>): Id {
    FindKey(accounts, VatInputKey).GetOr(0)
  }

  function LinesOfDoc(accounts: seq<Account>, d: Doc): seq<Line> {
    DocEntryLines(d, ArAccount(accounts), VatOutAccount(accounts))
  }

  predicate BillsTime(d: Doc, t: Id) {
    exists j :: 0 <= j < |d.lines| && d.lines[j].timeEntry == t
  }

  /** The time entries a document bills are flagged when it is issued. */
  function FlagTime(time: seq<Option<TimeEntry>>, d: Doc): seq<Option<TimeEntry>> {
    seq(|time|, i requires 0 <= i < |time| =>
      if time[i].Some? && BillsTime(d, i + 1) then Some(time[i].value.(invoiced := true)) else time[i])
  }

  function Issue(s: State, id: Id): Outcome {
    match Row(s.docs, id)
    case None => Refused(NotFound)
    case Some(doc) =>
      var ar, vatOut := FindKey(s.accounts, ArKey), FindKey(s.accounts, VatOutputKey);
      if doc.status != Draft || doc.lines == [] then Refused(Invalid)
      else if Locked(s.periods, doc.issueDate) then Refused(PeriodLocked)
      else if ar.None? || (doc.vat != 0 && vatOut.None?) then Refused(NotFound)
      else if !Balanced(Postings(doc, ar.value, vatOut.GetOr(0))) then Refused(Invalid)
      else IssueInvoice(s, id, doc, LinesOfDoc(s.accounts, doc))
  }

  /** The irreversible transaction: number, entry, document and time flags together. */
  function IssueInvoice(s: State, id: Id, doc: Doc, lines: seq<Line>): Outcome
    requires Row(s.docs, id) == Some(doc)
  {
    var number := NumberFor(doc.kind, NextOf(s, doc.kind));
    if !RowsAccepted(s.accounts, lines) || NumberTaken(s.docs, number) then Refused(Rejected)
    else
      var e := Entry(doc.issueDate, if doc.kind == CreditNote then FromCreditNote else FromInvoice, id, 0, lines);
      var issued := doc.(number := number, status := Issued, entry := |s.entries| + 1);
      Done(AddEntry(BumpSequence(s, doc.kind), e)
           .(docs := s.docs[id - 1 := Some(issued)], time := FlagTime(s.time, doc)), id)
  }

  function VoidDoc(s: State, id: Id): Outcome {
    match Row(s.docs, id)
    case None => Refused(NotFound)
    case Some(doc) =>
      if doc.status == Draft || doc.status == Void || doc.paid != 0 then Refused(Invalid)
      else if Locked(s.periods, s.today) then Refused(PeriodLocked)
      else
        var reversed := if doc.entry != 0 then Reverse(s, doc.entry, Some(s.today)) else Done(s, 0);
        match reversed
        case Refused(why) => Refused(why)
        case Done(s1, _) => Done(s1.(docs := s1.docs[id - 1 := Some(doc.(status := Void))]), id)
  }

  // ---- payments ----

  function PaidFor(id: Id): Option<Payment> -> int {
    (row: Option<Payment>) => if row.Some? && row.value.invoice == id then row.value.amount else 0
  }

  /** Refreshes the paid total of a document and the status that follows from it. */
  function Recalc(docs: seq<Option<Doc>>, payments: seq<Option<Payment>>, id: Id): seq<Option<Doc>> {
    match Row(docs, id)
    case None => docs
    case Some(doc) =>
      var paid := doc.(paid := Sum(payments, PaidFor(id)));
      docs[id - 1 := Some(paid.(status := PaymentStatus(paid)))]
  }

  function PaymentLines(p: Payment, ar: Id): seq<Line> {
    [Line(p.deposit, p.amount, 0), Line(ar, 0, p.amount)]
  }

  function RecordPayment(s: State, input: PaymentInput): Outcome {
    match Row(s.docs, input.invoice)
    case None => Refused(Invalid)
    case Some(doc) =>
      var paidOn := input.paidOn.GetOr(s.today);
      var deposit := if input.deposit == 0 then FindKey(s.accounts, BankKey) else Some(input.deposit);
      if doc.status == Draft || doc.status == Void || doc.status == Paid then Refused(Invalid)
      else if input.amount <= 0 || input.amount > doc.Outstanding() then Refused(Invalid)
      else if Locked(s.periods, paidOn) then Refused(PeriodLocked)
      else if deposit.None? then Refused(NotFound)
      else if !IsKind(s.accounts, deposit.value, Asset) then Refused(Invalid)
      else if FindKey(s.accounts, ArKey).None? then Refused(NotFound)
      else StorePayment(s, Payment(input.invoice, paidOn, input.amount, deposit.value, |s.entries| + 1))
  }

  /** The receipt, its entry and the refreshed document. */
  function StorePayment(s: State, p: Payment): Outcome {
    var lines := PaymentLines(p, ArAccount(s.accounts));
    if !RowsAccepted(s.accounts, lines) then Refused(Rejected)
    else
      var id := |s.payments| + 1;
      var payments := s.payments + [Some(p)];
      Done(AddEntry(s, Entry(p.paidOn, FromPayment, id, 0, lines))
           .(payments := payments, docs := Recalc(s.docs, payments, p.invoice)), id)
  }

  function DeletePayment(s: State, id: Id): Outcome {
    match Row(s.payments, id)
    case None => Refused(NotFound)
    case Some(p) =>
      if Locked(s.periods, p.paidOn) then Refused(PeriodLocked)
      else
        var reversed := if p.entry != 0 then Reverse(s, p.entry, None) else Done(s, 0);
        match reversed
        case Refused(why) => Refused(why)
        case Done(s1, _) =>
          var payments := s.payments[id - 1 := None];
          Done(s1.(payments := payments, docs := Recalc(s.docs, payments, p.invoice)), id)
  }

  // ---- expenses ----

  function ExpenseLines(x: ExpenseRow, vatIn: Id): seq<Line> {
    (if x.vat != 0 && x.reclaimable then [Line(x.account, x.net, 0), Line(vatIn, x.vat, 0)]
     else [Line(x.account, x.total, 0)])
    + [Line(x.paidFrom, 0, x.total)]
  }

  /** The row an expense becomes, or why it does not. */
  function CheckExpense(s: State, input: ExpenseInput): Checked<ExpenseRow> {
    var spentOn := input.spentOn.GetOr(s.today);
    var paidFrom := if input.paidFrom == 0 then FindKey(s.accounts, BankKey) else Some(input.paidFrom);
    if Locked(s.periods, spentOn) then Failed(PeriodLocked)
    else if (TrimSpace(input.vendor) == "" && TrimSpace(input.description) == "") || input.net <= 0 then Failed(Invalid)
    else if !IsKind(s.accounts, input.account, Expense) && !IsKind(s.accounts, input.account, Asset) then Failed(Invalid)
    else if paidFrom.None? then Failed(NotFound)
    else if !IsKind(s.accounts, paidFrom.value, Asset) && !IsKind(s.accounts, paidFrom.value, Liability) then Failed(Invalid)
    else if input.rate != 0 && !HasRate(s.rates, input.rate) then Failed(Invalid)
    else
      var bp := if input.rate != 0 then s.rates[input.rate - 1].bp else input.rateBP;
      var vat := VAT(input.net, bp);
      if input.billable && input.client == 0 then Failed(Invalid)
      else if vat != 0 && input.reclaimable && FindKey(s.accounts, VatInputKey).None? then Failed(NotFound)
      else
        Passed(ExpenseRow(spentOn, input.account, paidFrom.value, input.net, input.rate, bp, vat, input.net + vat,
                          input.reclaimable, input.billable, input.client, input.rebilled, |s.entries| + 1))
  }

  function RecordExpense(s: State, input: ExpenseInput): Outcome {
    match CheckExpense(s, input)
    case Failed(why) => Refused(why)
    case Passed(x) => StoreExpense(s, x)
  }

  /** The expense row and its entry; the row's own checks come after the entry's. */
  function StoreExpense(s: State, x: ExpenseRow): Outcome {
    var lines := ExpenseLines(x, VatInAccount(s.accounts));
    if !RowsAccepted(s.accounts, lines) then Refused(Rejected)
    else if x.vat < 0 || x.total < 0 then Refused(Invalid)
    else
      var id := |s.expenses| + 1;
      Done(AddEntry(s, Entry(x.spentOn, FromExpense, id, 0, lines)).(expenses := s.expenses + [Some(x)]), id)
  }

  function DeleteExpense(s: State, id: Id): Outcome {
    match Row(s.expenses, id)
    case None => Refused(NotFound)
    case Some(x) =>
      if x.rebilled != 0 then Refused(Invalid)
      else if Locked(s.periods, x.spentOn) then Refused(PeriodLocked)
      else
        var reversed := if x.entry != 0 then Reverse(s, x.entry, None) else Done(s, 0);
        match reversed
        case Refused(why) => Refused(why)
        case Done(s1, _) => Done(s1.(expenses := s.expenses[id - 1 := None]), id)
  }

  // ---- owner funding ----

  function FundingLines(f: Funding): seq<Line> {
    if f.kind != Repayment then [Line(f.cash, f.amount, 0), Line(f.owner, 0, f.amount)]
    else [Line(f.owner, f.amount, 0), Line(f.cash, 0, f.amount)]
  }

  /** What the owner is owed as of a date, read off the journal. */
  function LoanBalance(s: State, asOf: Date): Money {
    match FindKey(s.accounts, OwnerLoanKey)
    case None => 0
    case Some(a) => -Net(s.entries, UpTo(asOf), a)
  }

  function OwnerAccount(s: State, kind: FundingKind, owner: Id): Checked<Id> {
    if owner == 0 then
      match FindKey(s.accounts, if kind == Capital then CapitalKey else OwnerLoanKey)
      case None => Failed(NotFound)
      case Some(a) => Passed(a)
    else if !IsKind(s.accounts, owner, if kind == Capital then Equity else Liability) then Failed(Invalid)
    else if s.accounts[owner - 1].archived then Failed(Invalid)
    else Passed(owner)
  }

  /** The row a funding movement becomes, or why it does not. */
  function CheckFunding(s: State, input: FundingInput): Checked<Funding> {
    var receivedOn := input.receivedOn.GetOr(s.today);
    var cash := if input.cash == 0 then FindKey(s.accounts, BankKey) else Some(input.cash);
    if input.amount <= 0 then Failed(Invalid)
    else if Locked(s.periods, receivedOn) then Failed(PeriodLocked)
    else if cash.None? then Failed(NotFound)
    else if !IsKind(s.accounts, cash.value, Asset) then Failed(Invalid)
    else
      match OwnerAccount(s, input.kind, input.owner)
      case Failed(why) => Failed(why)
      case Passed(owner) =>
        if input.kind == Repayment && (LoanBalance(s, receivedOn) <= 0 || input.amount > LoanBalance(s, receivedOn)) then
          Failed(Invalid)
        else
          Passed(Funding(receivedOn, input.kind, input.amount, cash.value, owner, |s.entries| + 1))
  }

  /** The funding row and its entry. */
  function StoreFunding(s: State, f: Funding): Outcome {
    if !RowsAccepted(s.accounts, FundingLines(f)) then Refused(Rejected)
    else
      var id := |s.fundings| + 1;
      Done(AddEntry(s, Entry(f.receivedOn, FromFunding, id, 0, FundingLines(f))).(fundings := s.fundings + [Some(f)]), id)
  }

  function RecordFunding(s: State, input: FundingInput): Outcome {
    match CheckFunding(s, input)
    case Failed(why) => Refused(why)
    case Passed(f) => StoreFunding(s, f)
  }

  function DeleteFunding(s: State, id: Id): Outcome {
    match Row(s.fundings, id)
    case None => Refused(NotFound)
    case Some(f) =>
      if Locked(s.periods, f.receivedOn) then Refused(PeriodLocked)
      else if f.kind == Loan && LoanBalance(s, s.today) < f.amount then Refused(Invalid)
      else
        var reversed := if f.entry != 0 then Reverse(s, f.entry, None) else Done(s, 0);
        match reversed
        case Refused(why) => Refused(why)
        case Done(s1, _) => Done(s1.(fundings := s.fundings[id - 1 := None]), id)
  }

  // ---- billing time ----

  predicate SpokenFor(docs: seq<Option<Doc>>, t: Id) {
    exists i :: 0 <= i < |docs| && docs[i].Some? && docs[i].value.status != Void && BillsTime(docs[i].value, t)
  }

  predicate IsUnbilled(s: State, f: TimeFilter, t: Id) {
    match Row(s.time, t)
    case None => false
    case Some(e) =>
      && e.billable && !e.invoiced
      && (f.engagement != 0 ==> e.engagement == f.engagement)
      && (f.client != 0 ==> e.client == f.client)
      && (f.upTo.Some? ==> e.date <= f.upTo.value)
      && !SpokenFor(s.docs, t)
  }

  const NoTime := TimeEntry(false, false, 0, 0, 0, 0, 0)

  /** By client, then engagement, then date, then id. */
  function BillingOrder(s: State): Before {
    (a: int, b: int) =>
      var x, y := Row(s.time, a).GetOr(NoTime), Row(s.time, b).GetOr(NoTime);
      if x.client != y.client then x.client < y.client
      else if x.engagement != y.engagement then x.engagement < y.engagement
      else if x.date != y.date then x.date < y.date
      else a < b
  }

  function Offered(s: State, f: TimeFilter): int -> bool {
    (t: int) => IsUnbilled(s, f, t)
  }

  /** The unbilled entries, in the order they are billed in. */
  function Unbilled(s: State, f: TimeFilter): (ids: seq<Id>)
    ensures forall t :: t in ids <==> 1 <= t <= |s.time| && IsUnbilled(s, f, t)
    ensures forall i, j :: 0 <= i < j < |ids| ==> BillingOrder(s)(ids[i], ids[j])
    ensures forall i, j :: 0 <= i < j < |ids| ==> ids[i] != ids[j]
    ensures forall i :: 0 <= i < |ids| ==> Row(s.time, ids[i]).Some?
  {
    OrderedIsExact(|s.time|, Offered(s, f), BillingOrder(s));
    var ids := Ordered(|s.time|, Offered(s, f), BillingOrder(s));
    assert forall i :: 0 <= i < |ids| ==> ids[i] in ids;
    ids
  }

  function TimeLine(e: TimeEntry, t: Id, rate: Id, income: Id): DocLine {
    DocLine("time entry", e.hours, e.rate, 0, rate, 0, 0, income, t)
  }

  predicate AllLogged(s: State, ids: seq<Id>) {
    ids != [] && forall i :: 0 <= i < |ids| ==> Row(s.time, ids[i]).Some?
  }

  function Logged(s: State, ids: seq<Id>, i: nat): TimeEntry
    requires AllLogged(s, ids) && i < |ids|
  {
    Row(s.time, ids[i]).value
  }

  /** The draft a selection of time entries becomes: one line each, pinned to an engagement when there is just one. */
  function TimeInput(s: State, ids: seq<Id>, income: Id): DocInput
    requires AllLogged(s, ids)
  {
    var first := Logged(s, ids, 0);
    var pinned := forall i :: 0 <= i < |ids| ==> Logged(s, ids, i).engagement == first.engagement;
    var lines := seq(|ids|, i requires 0 <= i < |ids| => TimeLine(Logged(s, ids, i), ids[i], s.defaultRate, income));
    DocInput(Invoice, first.client, if pinned then first.engagement else 0, Some(s.today), None, 0, false, "", 0, 0, 0, lines)
  }

  function BillTime(s: State, f: TimeFilter): Outcome {
    var ids := Unbilled(s, f);
    if (f.client == 0 && f.engagement == 0) || ids == [] then Refused(Invalid)
    else if exists i :: 0 <= i < |ids| && Logged(s, ids, i).client != Logged(s, ids, 0).client then Refused(Invalid)
    else if exists i :: 0 <= i < |ids| && Logged(s, ids, i).rate == 0 then Refused(Invalid)
    else
      match FindKey(s.accounts, SalesKey)
      case None => Refused(NotFound)
      case Some(income) => CreateDraft(s, TimeInput(s, ids, income))
  }

  // ---- steps and runs ----

  datatype Step =
    | DoCreateAccount(account: Account)
    | DoUpdateAccount(id: Id, account: Account)
    | DoArchiveAccount(id: Id, archived: bool)
    | DoSaveRate(id: Id, vatRate: VatRate)
    | DoSaveSettings(terms: int, rate: Id)
    | DoSavePeriod(id: Id, period: Period)
    | DoPost(date: Option<Date>, source: Source, sourceId: Id, reverses: Id, lines: seq<Line>)
    | DoReverse(id: Id, date: Option<Date>)
    | DoCreateDraft(input: DocInput)
    | DoUpdateDraft(id: Id, input: DocInput)
    | DoDeleteDraft(id: Id)
    | DoCreditNote(id: Id, creditLines: seq<DocLine>)
    | DoIssue(id: Id)
    | DoVoid(id: Id)
    | DoRecordPayment(payment: PaymentInput)
    | DoDeletePayment(id: Id)
    | DoRecordExpense(expense: ExpenseInput)
    | DoDeleteExpense(id: Id)
    | DoRecordFunding(funding: FundingInput)
    | DoDeleteFunding(id: Id)
    | DoBillTime(filter: TimeFilter)
    // The CRM next door owns clients and timesheets and may change them in any way.
    | CrmChanges(clients: set<Id>, time: seq<Option<TimeEntry>>)
    | DateChanges(today: Date)

  function Perform(s: State, step: Step): Outcome {
    match step
    case DoCreateAccount(a) => CreateAccount(s, a)
    case DoUpdateAccount(id, a) => UpdateAccount(s, id, a)
    case DoArchiveAccount(id, archived) => ArchiveAccount(s, id, archived)
    case DoSaveRate(id, v) => SaveRate(s, id, v)
    case DoSaveSettings(terms, rate) => SaveSettings(s, terms, rate)
    case DoSavePeriod(id, p) => SavePeriod(s, id, p)
    case DoPost(date, source, sourceId, reverses, lines) => Post(s, date, source, sourceId, reverses, lines)
    case DoReverse(id, date) => Reverse(s, id, date)
    case DoCreateDraft(input) => CreateDraft(s, input)
    case DoUpdateDraft(id, input) => UpdateDraft(s, id, input)
    case DoDeleteDraft(id) => DeleteDraft(s, id)
    case DoCreditNote(id, lines) => RaiseCreditNote(s, id, lines)
    case DoIssue(id) => Issue(s, id)
    case DoVoid(id) => VoidDoc(s, id)
    case DoRecordPayment(p) => RecordPayment(s, p)
    case DoDeletePayment(id) => DeletePayment(s, id)
    case DoRecordExpense(x) => RecordExpense(s, x)
    case DoDeleteExpense(id) => DeleteExpense(s, id)
    case DoRecordFunding(f) => RecordFunding(s, f)
    case DoDeleteFunding(id) => DeleteFunding(s, id)
    case DoBillTime(f) => BillTime(s, f)
    case CrmChanges(clients, time) => Done(s.(clients := clients, time := time), 0)
    case DateChanges(today) => Done(s.(today := today), 0)
  }

  function After(s: State, step: Step): State {
    match Perform(s, step)
    case Done(next, _) => next
    case Refused(_) => s
  }

  function Run(s: State, steps: seq<Step>): State {
    if steps == [] then s else After(Run(s, steps[..|steps| - 1]), steps[|steps| - 1])
  }
}
