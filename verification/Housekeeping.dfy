/**
What the handlers for accounts, rates, settings and periods keep in order, and what that is worth:
tax charged at a rate on file is never negative and never more than the net.
*/
module Housekeeping {
  import opened Options
  import opened Sums
  import opened Text
  import opened Amounts
  import opened Ledger
  import opened Documents
  import opened Books
  import opened Journal
  import opened Soundness
  import opened FiledReturns
  import opened Drafts

  // ---- the tables ----

  predicate Untaxed(kind: VatKind) {
    kind == Zero || kind == Exempt || kind == ReverseCharge
  }

  predicate GoodRates(rates: seq<VatRate>) {
    forall i :: 0 <= i < |rates| ==> 0 <= rates[i].bp <= 10000 && (Untaxed(rates[i].kind) ==> rates[i].bp == 0)
  }

  predicate GoodSettings(s: State) {
    0 <= s.defaultTerms <= 365 && (s.defaultRate == 0 || HasRate(s.rates, s.defaultRate))
  }

  predicate GoodPeriods(periods: seq<Period>) {
    forall i :: 0 <= i < |periods| ==> periods[i].startsOn <= periods[i].endsOn
  }

  /** Neither blank nor with blanks around it. */
  predicate Trimmed(text: string) {
    text != "" && TrimSpace(text) == text
  }

  predicate GoodChart(accounts: seq<Account>) {
    && (forall i :: 0 <= i < |accounts| ==> Trimmed(accounts[i].code) && Trimmed(accounts[i].name))
    && forall i, j :: 0 <= i < j < |accounts| ==> accounts[i].code != accounts[j].code
  }

  ghost predicate Tidy(s: State) {
    GoodRates(s.rates) && GoodSettings(s) && GoodPeriods(s.periods) && GoodChart(s.accounts)
  }

  lemma SettingsStand(s: State, step: Step)
    requires !step.DoSaveSettings?
    ensures After(s, step).defaultTerms == s.defaultTerms && After(s, step).defaultRate == s.defaultRate
  {
  }

  lemma PeriodsStand(s: State, step: Step)
    requires !step.DoSavePeriod?
    ensures After(s, step).periods == s.periods
  {
  }

  lemma StepKeepsRates(s: State, step: Step)
    requires GoodRates(s.rates)
    ensures GoodRates(After(s, step).rates) && |s.rates| <= |After(s, step).rates|
  {
    if !step.DoSaveRate? {
      RatesStand(s, step);
    }
  }

  lemma StepKeepsSettings(s: State, step: Step)
    requires GoodRates(s.rates) && GoodSettings(s)
    ensures GoodSettings(After(s, step))
  {
    StepKeepsRates(s, step);
    if !step.DoSaveSettings? {
      SettingsStand(s, step);
    }
  }

  lemma StepKeepsPeriods(s: State, step: Step)
    requires GoodPeriods(s.periods)
    ensures GoodPeriods(After(s, step).periods)
  {
    if !step.DoSavePeriod? {
      PeriodsStand(s, step);
    }
  }

  lemma CreatedIsNamed(s: State, a: Account)
    requires GoodChart(s.accounts)
    ensures CreateAccount(s, a).Done? ==> GoodChart(CreateAccount(s, a).state.accounts)
  {
    TrimIsSettled(a.code);
    TrimIsSettled(a.name);
  }

  lemma UpdatedIsNamed(s: State, id: Id, a: Account)
    requires GoodChart(s.accounts)
    ensures UpdateAccount(s, id, a).Done? ==> GoodChart(UpdateAccount(s, id, a).state.accounts)
  {
    TrimIsSettled(a.code);
    TrimIsSettled(a.name);
  }

  lemma StepKeepsNames(s: State, step: Step)
    requires GoodChart(s.accounts)
    ensures GoodChart(After(s, step).accounts)
  {
    match step
    case DoCreateAccount(a) => CreatedIsNamed(s, a);
    case DoUpdateAccount(id, a) => UpdatedIsNamed(s, id, a);
    case DoArchiveAccount(id, archived) =>
    case _ => OthersLeaveChart(s, step);
  }

  /**
  In every reachable state: every rate lies between nothing and the whole, and the untaxed kinds
  charge nothing; default terms are at most a year and the default rate exists; no period ends
  before it starts; account codes and names are trimmed, and no two accounts share a code.
  */
  lemma {:induction false} StaysTidy(s: State, steps: seq<Step>)
    requires Tidy(s)
    ensures Tidy(Run(s, steps))
  {
    if steps != [] {
      var prior, last := Run(s, steps[..|steps| - 1]), steps[|steps| - 1];
      StaysTidy(s, steps[..|steps| - 1]);
      StepKeepsRates(prior, last);
      StepKeepsSettings(prior, last);
      StepKeepsPeriods(prior, last);
      StepKeepsNames(prior, last);
    }
  }

  // ---- what each handler takes ----

  predicate CodeIsFree(accounts: seq<Account>, code: string, except: Id) {
    forall i :: 0 <= i < |accounts| && accounts[i].code == code ==> i + 1 == except
  }

  /** Exactly which accounts are opened, and as what: under a code no account has, and never as a system account. */
  lemma WhenAccountIsOpened(s: State, a: Account)
    ensures CreateAccount(s, a).Done? <==>
      TrimSpace(a.code) != "" && TrimSpace(a.name) != "" && CodeIsFree(s.accounts, TrimSpace(a.code), 0)
    ensures CreateAccount(s, a).Done? ==>
      var t := CreateAccount(s, a).state;
      && t == s.(accounts := t.accounts) && |t.accounts| == |s.accounts| + 1 && t.accounts[..|s.accounts|] == s.accounts
      && CreateAccount(s, a).id == |t.accounts|
      && var added := t.accounts[|s.accounts|];
         && added.code == TrimSpace(a.code) && added.name == TrimSpace(a.name)
         && added.kind == a.kind && added.archived == a.archived && added.key == NoKey
  {
  }

  /** Exactly which edits of an account are taken: under a code of its own, of another type only while no journal line names it. */
  lemma WhenAccountIsEdited(s: State, id: Id, a: Account)
    ensures UpdateAccount(s, id, a).Done? <==>
      && HasAccount(s.accounts, id)
      && TrimSpace(a.code) != "" && TrimSpace(a.name) != "" && CodeIsFree(s.accounts, TrimSpace(a.code), id)
      && (a.kind == s.accounts[id - 1].kind
          || forall i, j :: 0 <= i < |s.entries| && 0 <= j < |s.entries[i].lines| ==> s.entries[i].lines[j].account != id)
    ensures UpdateAccount(s, id, a).Done? ==>
      var t := UpdateAccount(s, id, a).state;
      && t == s.(accounts := s.accounts[id - 1 := t.accounts[id - 1]])
      && var edited := t.accounts[id - 1];
         && edited.code == TrimSpace(a.code) && edited.name == TrimSpace(a.name)
         && edited.kind == a.kind && edited.archived == a.archived && edited.key == s.accounts[id - 1].key
  {
  }

  /** Any account but a system account is archived, every account is taken back into use, and nothing else about it changes. */
  lemma WhenAccountIsArchived(s: State, id: Id, archived: bool)
    ensures ArchiveAccount(s, id, archived).Done? <==> HasAccount(s.accounts, id) && (archived ==> s.accounts[id - 1].key == NoKey)
    ensures ArchiveAccount(s, id, archived).Done? ==>
      var t := ArchiveAccount(s, id, archived).state;
      && t == s.(accounts := s.accounts[id - 1 := t.accounts[id - 1]])
      && t.accounts[id - 1].archived == archived && s.accounts[id - 1] == t.accounts[id - 1].(archived := s.accounts[id - 1].archived)
  {
  }

  /** Exactly which rates are saved: between nothing and the whole, and at nothing for a treatment that charges nothing. */
  lemma WhenRateIsSaved(s: State, id: Id, v: VatRate)
    ensures SaveRate(s, id, v).Done? <==>
      && 0 <= v.bp <= 10000 && (Untaxed(v.kind) ==> v.bp == 0)
      && 0 <= id <= |s.rates|
    ensures SaveRate(s, id, v).Done? ==>
      var t := SaveRate(s, id, v).state;
      && t == s.(rates := t.rates) && |t.rates| == (if id == 0 then |s.rates| + 1 else |s.rates|)
      && t.rates[SaveRate(s, id, v).id - 1] == v
      && forall i :: 0 <= i < |s.rates| && i + 1 != id ==> t.rates[i] == s.rates[i]
  {
  }

  lemma WhenSettingsAreSaved(s: State, terms: int, rate: Id)
    ensures SaveSettings(s, terms, rate).Done? <==> 0 <= terms <= 365 && 0 <= rate <= |s.rates|
    ensures SaveSettings(s, terms, rate).Done? ==> SaveSettings(s, terms, rate).state == s.(defaultTerms := terms, defaultRate := rate)
  {
  }

  // ---- tax ----

  /** Between nothing and the whole net, on the net's side of zero. */
  predicate TaxWithin(net: Money, vat: Money) {
    (net >= 0 ==> 0 <= vat <= net) && (net <= 0 ==> net <= vat <= 0)
  }

  lemma Scaled(net: Money, bp: int)
    requires net >= 0 && 0 <= bp <= 10000
    ensures 0 <= net * bp <= net * 10000
  {
  }

  lemma RateWithinTaxWithin(net: Money, bp: int)
    requires 0 <= bp <= 10000
    ensures TaxWithin(net, VAT(net, bp))
    decreases net < 0
  {
    if net < 0 {
      RateWithinTaxWithin(-net, bp);
      AmountsMirror(-net, bp, 0, 0);
    } else {
      var n := net * bp;
      Scaled(net, bp);
      RoundingIsMonotone(0, n, 5000);
      RoundingIsMonotone(n, net * 10000, 5000);
      assert RoundedDiv(0, 5000) == 0 && RoundedDiv(net * 10000, 5000) == net;
    }
  }

  /** A quantity, an income account, and the net they come to. */
  predicate ExtendedLine(l: DocLine) {
    l.quantity != 0 && l.income != 0 && l.net == Extend(l.quantity, l.unitPrice)
  }

  /** A line as pricing leaves it: at a rate on file, or without one and taxed as its caller asked. */
  predicate RatedLine(rates: seq<VatRate>, l: DocLine) {
    ExtendedLine(l) && (l.rate != 0 ==> HasRate(rates, l.rate) && TaxWithin(l.net, l.vat))
  }

  ghost predicate RatedDocs(rates: seq<VatRate>, docs: seq<Option<Doc>>) {
    forall i, j :: 0 <= i < |docs| && docs[i].Some? && 0 <= j < |docs[i].value.lines| ==> RatedLine(rates, docs[i].value.lines[j])
  }

  lemma PricedLineIsRated(p: Pricing, l: DocLine)
    requires GoodRates(p.rates) && (p.reverse.Some? ==> HasRate(p.rates, p.reverse.value))
    requires PriceLine(p, l).Some?
    ensures RatedLine(p.rates, PriceLine(p, l).value)
  {
    var priced := PriceLine(p, l).value;
    if p.reverse.None? && priced.rate != 0 {
      RateWithinTaxWithin(priced.net, p.rates[priced.rate - 1].bp);
    }
  }

  lemma PreparedIsRated(s: State, input: DocInput)
    requires GoodRates(s.rates) && Prepare(s, input).Passed?
    ensures forall j :: 0 <= j < |Prepare(s, input).row.lines| ==> RatedLine(s.rates, Prepare(s, input).row.lines[j])
  {
    var p := PricingFor(s, input.reverseCharge).value;
    var lines := Prepare(s, input).row.lines;
    FirstRateIsOfKind(s.rates, ReverseCharge);
    forall j | 0 <= j < |lines|
      ensures RatedLine(s.rates, lines[j])
    {
      assert PriceLine(p, input.lines[j]) == Some(lines[j]);
      PricedLineIsRated(p, input.lines[j]);
    }
  }

  /**
  When the tax of a prepared line can leave its bounds: only on a line that names no rate, where
  there is no default one, at a percentage its caller made up.
  */
  lemma PreparedTaxIsWithin(s: State, input: DocInput, j: nat)
    requires Tidy(s) && Prepare(s, input).Passed? && j < |input.lines|
    ensures var l := Prepare(s, input).row.lines[j];
            TaxWithin(l.net, l.vat)
            || (!input.reverseCharge && input.lines[j].rate == 0 && s.defaultRate == 0 && !(0 <= input.lines[j].rateBP <= 10000))
  {
    var p := PricingFor(s, input.reverseCharge).value;
    var l := Prepare(s, input).row.lines[j];
    assert PriceLine(p, input.lines[j]) == Some(l);
    PreparedIsRated(s, input);
    if l.rate == 0 && p.reverse.None? && 0 <= input.lines[j].rateBP <= 10000 {
      RateWithinTaxWithin(l.net, input.lines[j].rateBP);
    }
  }

  /** The rows of the table that are still there bill what they billed. */
  ghost predicate LinesStand(before: seq<Option<Doc>>, after: seq<Option<Doc>>) {
    && |after| == |before|
    && forall i :: 0 <= i < |after| && after[i].Some? ==>
         && before[i].Some?
         && after[i].value.lines == before[i].value.lines && after[i].value.reverseCharge == before[i].value.reverseCharge
  }

  lemma DraftedIsRated(s: State, input: DocInput)
    requires GoodRates(s.rates) && RatedDocs(s.rates, s.docs)
    ensures CreateDraft(s, input).Done? ==> RatedDocs(s.rates, CreateDraft(s, input).state.docs)
  {
    if CreateDraft(s, input).Done? {
      PreparedIsRated(s, input);
    }
  }

  lemma RedraftedIsRated(s: State, id: Id, input: DocInput)
    requires GoodRates(s.rates) && RatedDocs(s.rates, s.docs)
    ensures UpdateDraft(s, id, input).Done? ==> RatedDocs(s.rates, UpdateDraft(s, id, input).state.docs)
  {
    if UpdateDraft(s, id, input).Done? {
      PreparedIsRated(s, input.(kind := Row(s.docs, id).value.kind));
    }
  }

  lemma ReplacingKeepsLines(docs: seq<Option<Doc>>, id: Id, d: Doc)
    requires Row(docs, id).Some? && d.lines == Row(docs, id).value.lines && d.reverseCharge == Row(docs, id).value.reverseCharge
    ensures LinesStand(docs, docs[id - 1 := Some(d)])
  {
  }

  lemma RecalcKeepsLines(docs: seq<Option<Doc>>, payments: seq<Option<Payment>>, id: Id)
    ensures LinesStand(docs, Recalc(docs, payments, id))
  {
    if Row(docs, id).Some? {
      ReplacingKeepsLines(docs, id, Recalc(docs, payments, id)[id - 1].value);
    }
  }

  lemma IssueKeepsLines(s: State, id: Id)
    requires Issue(s, id).Done?
    ensures LinesStand(s.docs, Issue(s, id).state.docs)
  {
    ReplacingKeepsLines(s.docs, id, Issue(s, id).state.docs[id - 1].value);
  }

  lemma VoidKeepsLines(s: State, id: Id)
    requires VoidDoc(s, id).Done?
    ensures LinesStand(s.docs, VoidDoc(s, id).state.docs)
  {
    ReplacingKeepsLines(s.docs, id, Row(s.docs, id).value.(status := Void));
  }

  lemma PaymentKeepsLines(s: State, input: PaymentInput)
    requires RecordPayment(s, input).Done?
    ensures LinesStand(s.docs, RecordPayment(s, input).state.docs)
  {
    var p := PaymentMovesRows(s, input);
    RecalcKeepsLines(s.docs, s.payments + [Some(p)], input.invoice);
  }

  lemma DeletionKeepsLines(s: State, id: Id)
    requires DeletePayment(s, id).Done?
    ensures LinesStand(s.docs, DeletePayment(s, id).state.docs)
  {
    var p := DeletionMovesRows(s, id);
    RecalcKeepsLines(s.docs, s.payments[id - 1 := None], p.invoice);
  }

  /** No step but an edit of a draft touches what a document bills. */
  lemma StepKeepsLines(s: State, step: Step)
    requires !EditsDrafts(step)
    ensures LinesStand(s.docs, After(s, step).docs)
  {
    if MovesDocs(step) {
      if Perform(s, step).Done? {
        match step
        case DoIssue(id) => IssueKeepsLines(s, id);
        case DoVoid(id) => VoidKeepsLines(s, id);
        case DoRecordPayment(p) => PaymentKeepsLines(s, p);
        case DoDeletePayment(id) => DeletionKeepsLines(s, id);
      }
    } else {
      DocsUntouched(s, step);
    }
  }

  lemma DraftStepKeepsRated(s: State, step: Step)
    requires EditsDrafts(step) && GoodRates(s.rates) && RatedDocs(s.rates, s.docs)
    ensures RatedDocs(s.rates, After(s, step).docs)
  {
    match step
    case DoCreateDraft(input) => DraftedIsRated(s, input);
    case DoUpdateDraft(id, input) => RedraftedIsRated(s, id, input);
    case DoCreditNote(id, lines) =>
      if RaiseCreditNote(s, id, lines).Done? {
        DraftedIsRated(s, CreditInput(s, id, Row(s.docs, id).value, lines));
      }
    case DoBillTime(f) =>
      if BillTime(s, f).Done? {
        DraftedIsRated(s, TimeInput(s, Unbilled(s, f), FindKey(s.accounts, SalesKey).value));
      }
    case DoDeleteDraft(id) =>
  }

  lemma StepKeepsRated(s: State, step: Step)
    requires GoodRates(s.rates) && RatedDocs(s.rates, s.docs)
    ensures RatedDocs(After(s, step).rates, After(s, step).docs)
  {
    if step.DoSaveRate? {
      StepKeepsRates(s, step);
      DocsUntouched(s, step);
    } else {
      RatesStand(s, step);
      if EditsDrafts(step) {
        DraftStepKeepsRated(s, step);
      } else {
        StepKeepsLines(s, step);
      }
    }
  }

  /**
  In every reachable state, every line of every document is extended from its quantity and price,
  one that names a rate names one on file,
  and its tax is neither negative nor more than its net (nor, on a line to be deducted, the
  other way round).
  */
  lemma {:induction false} TaxStaysWithin(s: State, steps: seq<Step>)
    requires Tidy(s) && RatedDocs(s.rates, s.docs)
    ensures RatedDocs(Run(s, steps).rates, Run(s, steps).docs)
  {
    if steps != [] {
      TaxStaysWithin(s, steps[..|steps| - 1]);
      StaysTidy(s, steps[..|steps| - 1]);
      StepKeepsRated(Run(s, steps[..|steps| - 1]), steps[|steps| - 1]);
    }
  }
}
