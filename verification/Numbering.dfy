/**
Issued documents and their numbers: what is frozen when a document goes out, and why each series
has neither a gap nor a repeat.
*/
module Numbering {
  import opened Options
  import opened Text
  import opened Amounts
  import opened Ledger
  import opened Documents
  import opened Books
  import opened Journal
  import opened Soundness

  predicate IsIssued(docs: seq<Option<Doc>>, i: int) {
    0 <= i < |docs| && docs[i].Some? && docs[i].value.status != Draft
  }

  // ---- documents are frozen when issued ----

  /** Only the paid total and the status of an issued document ever move, and void is final. */
  predicate Frozen(before: Doc, after: Doc) {
    && after == before.(paid := after.paid, status := after.status)
    && after.status != Draft
    && (before.status == Void ==> after == before)
  }

  ghost predicate DocsKept(before: seq<Option<Doc>>, after: seq<Option<Doc>>) {
    && |before| <= |after|
    && forall i :: IsIssued(before, i) ==> IsIssued(after, i) && Frozen(before[i].value, after[i].value)
  }

  /** Nothing but issuing turns a draft into anything else, and a draft carries no number. */
  ghost predicate NoneIssued(before: seq<Option<Doc>>, after: seq<Option<Doc>>) {
    && (forall i :: IsIssued(after, i) ==> IsIssued(before, i))
    && (DraftsUnnumbered(before) ==> DraftsUnnumbered(after))
  }

  ghost predicate DraftsUnnumbered(docs: seq<Option<Doc>>) {
    forall i :: 0 <= i < |docs| && docs[i].Some? && docs[i].value.status == Draft ==> docs[i].value.number == ""
  }

  lemma RecalcKeeps(docs: seq<Option<Doc>>, payments: seq<Option<Payment>>, id: Id)
    requires Row(docs, id).Some? ==> Row(docs, id).value.Live()
    ensures DocsKept(docs, Recalc(docs, payments, id)) && NoneIssued(docs, Recalc(docs, payments, id))
  {
  }

  lemma DraftMoveKeeps(s: State, t: State, d: Doc, id: Id)
    requires DraftMove(s, t, d, id)
    ensures DocsKept(s.docs, t.docs) && NoneIssued(s.docs, t.docs)
    ensures t.nextInvoice == s.nextInvoice && t.nextCreditNote == s.nextCreditNote
  {
  }

  lemma DraftStepKeeps(s: State, step: Step)
    requires EditsDrafts(step)
    ensures DocsKept(s.docs, After(s, step).docs) && NoneIssued(s.docs, After(s, step).docs)
    ensures forall kind :: NextOf(After(s, step), kind) == NextOf(s, kind)
  {
    var d, id := DraftSteps(s, step);
    DraftMoveKeeps(s, After(s, step), d, id);
  }

  /** The document moved from draft to issued under the next number of its series, and nothing else moved. */
  ghost predicate Issues(s: State, t: State, id: Id) {
    && Row(s.docs, id).Some? && Row(s.docs, id).value.status == Draft
    && |t.docs| == |s.docs|
    && IsIssued(t.docs, id - 1)
    && t.docs[id - 1].value.kind == Row(s.docs, id).value.kind
    && t.docs[id - 1].value.number == NumberFor(Row(s.docs, id).value.kind, NextOf(s, Row(s.docs, id).value.kind))
    && (forall j :: j != id - 1 && 0 <= j < |s.docs| ==> t.docs[j] == s.docs[j])
    && NextOf(t, Row(s.docs, id).value.kind) == NextOf(s, Row(s.docs, id).value.kind) + 1
    && forall other :: other != Row(s.docs, id).value.kind ==> NextOf(t, other) == NextOf(s, other)
  }

  lemma IssueKeeps(s: State, id: Id)
    requires Issue(s, id).Done?
    ensures Issues(s, Issue(s, id).state, id) && DocsKept(s.docs, Issue(s, id).state.docs)
  {
  }

  lemma VoidKeeps(s: State, id: Id)
    requires VoidDoc(s, id).Done?
    ensures var t := VoidDoc(s, id).state; DocsKept(s.docs, t.docs) && NoneIssued(s.docs, t.docs)
  {
  }

  lemma PaymentKeeps(s: State, input: PaymentInput)
    requires RecordPayment(s, input).Done?
    ensures var t := RecordPayment(s, input).state; DocsKept(s.docs, t.docs) && NoneIssued(s.docs, t.docs)
  {
    RecalcKeeps(s.docs, RecordPayment(s, input).state.payments, input.invoice);
  }

  lemma PaymentDeletionKeeps(s: State, id: Id)
    requires DeletePayment(s, id).Done? && PaymentsPlaced(s.docs, s.payments)
    ensures var t := DeletePayment(s, id).state; DocsKept(s.docs, t.docs) && NoneIssued(s.docs, t.docs)
  {
    RecalcKeeps(s.docs, DeletePayment(s, id).state.payments, Row(s.payments, id).value.invoice);
  }

  lemma SequencesOnlyMoveOnIssue(s: State, step: Step)
    requires !step.DoIssue?
    ensures var t := After(s, step); t.nextInvoice == s.nextInvoice && t.nextCreditNote == s.nextCreditNote
  {
  }

  lemma StepKeepsDocs(s: State, step: Step)
    requires PaymentsPlaced(s.docs, s.payments)
    ensures DocsKept(s.docs, After(s, step).docs)
    ensures !step.DoIssue? ==> NoneIssued(s.docs, After(s, step).docs)
  {
    if EditsDrafts(step) {
      DraftStepKeeps(s, step);
    } else if MovesDocs(step) {
      if Perform(s, step).Done? {
        match step
        case DoIssue(id) => IssueKeeps(s, id);
        case DoVoid(id) => VoidKeeps(s, id);
        case DoRecordPayment(p) => PaymentKeeps(s, p);
        case DoDeletePayment(id) => PaymentDeletionKeeps(s, id);
      }
    } else {
      DocsUntouched(s, step);
    }
  }

  /**
  From any reachable state onward, through any further steps: an issued document keeps its id,
  number, lines, totals and entry for good, never returns to draft, and once void stays void.
  */
  lemma {:induction false} IssuedDocumentsAreFrozen(s: State, steps: seq<Step>)
    requires Sound(s) && AllClean(steps)
    ensures Sound(Run(s, steps)) && DocsKept(s.docs, Run(s, steps).docs)
  {
    if steps != [] {
      var rest := steps[..|steps| - 1];
      IssuedDocumentsAreFrozen(s, rest);
      StepKeepsSound(Run(s, rest), steps[|steps| - 1]);
      StepKeepsDocs(Run(s, rest), steps[|steps| - 1]);
      KeptTwice(s.docs, Run(s, rest).docs, Run(s, steps).docs);
    }
  }

  lemma KeptTwice(a: seq<Option<Doc>>, b: seq<Option<Doc>>, c: seq<Option<Doc>>)
    requires DocsKept(a, b) && DocsKept(b, c)
    ensures DocsKept(a, c)
  {
    forall i | IsIssued(a, i)
      ensures IsIssued(c, i) && Frozen(a[i].value, c[i].value)
    {
      assert IsIssued(b, i);
    }
  }

  // ---- numbers ----

  predicate HoldsNumber(docs: seq<Option<Doc>>, i: int, kind: DocKind, n: int) {
    IsIssued(docs, i) && docs[i].value.kind == kind && docs[i].value.number == NumberFor(kind, n)
  }

  ghost predicate InUse(docs: seq<Option<Doc>>, kind: DocKind, n: int) {
    exists i :: HoldsNumber(docs, i, kind, n)
  }

  /** What each series starts counting from. */
  datatype Start = Start(invoice: nat, creditNote: nat) {
    function Of(kind: DocKind): nat {
      if kind == CreditNote then creditNote else invoice
    }
  }

  ghost predicate NoGap(s: State, start: Start) {
    forall kind, n :: start.Of(kind) <= n < NextOf(s, kind) ==> InUse(s.docs, kind, n)
  }

  ghost predicate NoStranger(s: State, start: Start) {
    forall i :: IsIssued(s.docs, i) ==>
      exists n :: start.Of(s.docs[i].value.kind) <= n < NextOf(s, s.docs[i].value.kind) && HoldsNumber(s.docs, i, s.docs[i].value.kind, n)
  }

  ghost predicate NoRepeat(s: State) {
    forall i, j :: IsIssued(s.docs, i) && IsIssued(s.docs, j) && s.docs[i].value.number == s.docs[j].value.number ==> i == j
  }

  ghost predicate Numbered(s: State, start: Start) {
    && start.Of(Invoice) <= NextOf(s, Invoice) && start.Of(CreditNote) <= NextOf(s, CreditNote)
    && DraftsUnnumbered(s.docs)
    && NoGap(s, start)
    && NoStranger(s, start)
    && NoRepeat(s)
  }

  function Printed(prefix: string, padding: int, n: nat): string {
    prefix + FormatInt(n, padding)
  }

  /** A number of the first prefix can read as the second prefix with a number begun. */
  predicate CanContinue(prefix: string, other: string) {
    |prefix| < |other| && other[..|prefix|] == prefix && AllDigits(other[|prefix|..])
  }

  lemma SameText(a: string, x: string, b: string, y: string)
    requires a + x == b + y && |a| <= |b|
    ensures b[..|a|] == a && x == b[|a|..] + y
  {
    assert (a + x)[..|a|] == a && (a + x)[|a|..] == x;
    assert (b + y)[..|a|] == b[..|a|] && (b + y)[|a|..] == b[|a|..] + y;
  }

  lemma StartOfDigits(whole: string, start: string, rest: string)
    requires AllDigits(whole) && whole == start + rest
    ensures AllDigits(start)
  {
    assert forall i :: 0 <= i < |start| ==> start[i] == whole[i];
  }

  /** Two printed numbers that are the same text: the longer prefix is the shorter one and some digits. */
  lemma DigitsAfter(prefix: string, padding: int, m: nat, other: string, width: int, n: nat)
    requires Printed(prefix, padding, m) == Printed(other, width, n) && |prefix| <= |other|
    ensures other[..|prefix|] == prefix && AllDigits(other[|prefix|..])
    ensures FormatInt(m, padding) == other[|prefix|..] + FormatInt(n, width)
  {
    PaddedValue(m, padding - |Digits(m)|);
    SameText(prefix, FormatInt(m, padding), other, FormatInt(n, width));
    StartOfDigits(FormatInt(m, padding), other[|prefix|..], FormatInt(n, width));
  }

  /**
  Whatever the prefixes and the paddings, a printed number determines its series and its count,
  so long as neither prefix can be mistaken for the other with a number begun.
  */
  lemma PrintedIsInjective(prefix: string, padding: int, m: nat, other: string, width: int, n: nat)
    requires Printed(prefix, padding, m) == Printed(other, width, n)
    requires !CanContinue(prefix, other) && !CanContinue(other, prefix)
    ensures prefix == other && m == n
  {
    if |prefix| <= |other| {
      DigitsAfter(prefix, padding, m, other, width, n);
    } else {
      DigitsAfter(other, width, n, prefix, padding, m);
    }
    assert prefix == other;
    assert [] + FormatInt(n, width) == FormatInt(n, width) && other[|prefix|..] == [];
    PaddedValue(m, padding - |Digits(m)|);
    PaddedValue(n, width - |Digits(n)|);
  }

  /** The condition is needed: under prefixes "A" and "A1" two series print alike. */
  lemma ContinuingPrefixesCollide()
    ensures CanContinue("A", "A1") && Printed("A", 0, 12) == Printed("A1", 0, 2)
  {
    assert Digits(1) == ['1'] && Digits(12) == ['1', '2'] && Digits(2) == ['2'];
  }

  lemma NumberIsInjective(k: DocKind, m: nat, l: DocKind, n: nat)
    requires NumberFor(k, m) == NumberFor(l, n)
    ensures k == l && m == n
  {
    var prefix, other := if k == CreditNote then "CN-" else "INV-", if l == CreditNote then "CN-" else "INV-";
    assert "CN-"[0] == 'C' && "INV-"[..3][0] == 'I';
    assert !CanContinue(prefix, other) && !CanContinue(other, prefix);
    PrintedIsInjective(prefix, 4, m, other, 4, n);
  }

  /** What a number reads: the prefix of its series, then the count in decimal, padded with zeros to four digits. */
  lemma NumberReads(kind: DocKind, n: nat) returns (count: string)
    ensures NumberFor(kind, n) == (if kind == Invoice then "INV-" else "CN-") + count
    ensures AllDigits(count) && Value(count) == n && |count| >= 4 && (|count| > 4 ==> count == Digits(n))
  {
    count := FormatInt(n, 4);
    CountReads(n, 4);
  }

  /** Issuing takes the next number of the document's own series, and moves that series alone. */
  lemma IssueTakesTheNextNumber(s: State, id: Id, t: State)
    requires Issue(s, id).Done? && Issue(s, id).state == t
    ensures Row(s.docs, id).Some? && Row(t.docs, id).Some?
    ensures Row(s.docs, id).value.kind == Invoice ==>
      && Row(t.docs, id).value.number == "INV-" + FormatInt(s.nextInvoice, 4)
      && t.nextInvoice == s.nextInvoice + 1 && t.nextCreditNote == s.nextCreditNote
    ensures Row(s.docs, id).value.kind == CreditNote ==>
      && Row(t.docs, id).value.number == "CN-" + FormatInt(s.nextCreditNote, 4)
      && t.nextCreditNote == s.nextCreditNote + 1 && t.nextInvoice == s.nextInvoice
  {
    IssueKeeps(s, id);
    var other := if Row(s.docs, id).value.kind == Invoice then CreditNote else Invoice;
    assert NextOf(t, other) == NextOf(s, other);
  }

  /** The next number of a series is free, so the uniqueness check on issue never fires. */
  lemma NextNumberIsFree(s: State, start: Start, kind: DocKind)
    requires Numbered(s, start)
    ensures !NumberTaken(s.docs, NumberFor(kind, NextOf(s, kind)))
  {
    var number := NumberFor(kind, NextOf(s, kind));
    assert number != "";
    forall i | 0 <= i < |s.docs| && s.docs[i].Some?
      ensures s.docs[i].value.number != number
    {
      if s.docs[i].value.status != Draft {
        assert IsIssued(s.docs, i);
        var k := s.docs[i].value.kind;
        var n :| start.Of(k) <= n < NextOf(s, k) && HoldsNumber(s.docs, i, k, n);
        if s.docs[i].value.number == number {
          NumberIsInjective(k, n, kind, NextOf(s, kind));
        }
      }
    }
  }

  lemma HeldNumbersPersist(before: seq<Option<Doc>>, after: seq<Option<Doc>>)
    requires DocsKept(before, after)
    ensures forall kind, n :: InUse(before, kind, n) ==> InUse(after, kind, n)
  {
    forall kind, n | InUse(before, kind, n)
      ensures InUse(after, kind, n)
    {
      var i :| HoldsNumber(before, i, kind, n);
      assert HoldsNumber(after, i, kind, n);
    }
  }

  lemma QuietStepStaysNumbered(s: State, t: State, start: Start)
    requires Numbered(s, start) && DocsKept(s.docs, t.docs) && NoneIssued(s.docs, t.docs)
    requires t.nextInvoice == s.nextInvoice && t.nextCreditNote == s.nextCreditNote
    ensures Numbered(t, start)
  {
    HeldNumbersPersist(s.docs, t.docs);
    forall i | IsIssued(t.docs, i)
      ensures exists n :: start.Of(t.docs[i].value.kind) <= n < NextOf(t, t.docs[i].value.kind) && HoldsNumber(t.docs, i, t.docs[i].value.kind, n)
    {
      assert IsIssued(s.docs, i);
      var k := s.docs[i].value.kind;
      var n :| start.Of(k) <= n < NextOf(s, k) && HoldsNumber(s.docs, i, k, n);
      assert HoldsNumber(t.docs, i, k, n);
    }
  }

  lemma IssueLeavesNoStranger(s: State, t: State, id: Id, start: Start)
    requires Numbered(s, start) && Issues(s, t, id) && DocsKept(s.docs, t.docs)
    ensures NoStranger(t, start)
  {
    forall i | IsIssued(t.docs, i)
      ensures exists n :: start.Of(t.docs[i].value.kind) <= n < NextOf(t, t.docs[i].value.kind) && HoldsNumber(t.docs, i, t.docs[i].value.kind, n)
    {
      if i != id - 1 {
        assert IsIssued(s.docs, i);
        var k := s.docs[i].value.kind;
        var n :| start.Of(k) <= n < NextOf(s, k) && HoldsNumber(s.docs, i, k, n);
        assert HoldsNumber(t.docs, i, k, n);
      } else {
        assert HoldsNumber(t.docs, i, t.docs[i].value.kind, NextOf(s, t.docs[i].value.kind));
      }
    }
  }

  lemma IssueRepeatsNoNumber(s: State, t: State, id: Id, start: Start)
    requires Numbered(s, start) && Issues(s, t, id)
    ensures NoRepeat(t)
  {
    NextNumberIsFree(s, start, Row(s.docs, id).value.kind);
    forall i, j | IsIssued(t.docs, i) && IsIssued(t.docs, j) && t.docs[i].value.number == t.docs[j].value.number
      ensures i == j
    {
      assert i != id - 1 ==> IsIssued(s.docs, i) && t.docs[i] == s.docs[i];
      assert j != id - 1 ==> IsIssued(s.docs, j) && t.docs[j] == s.docs[j];
    }
  }

  lemma IssueStaysNumbered(s: State, t: State, id: Id, start: Start)
    requires Numbered(s, start) && Issues(s, t, id) && DocsKept(s.docs, t.docs)
    ensures Numbered(t, start)
  {
    HeldNumbersPersist(s.docs, t.docs);
    assert HoldsNumber(t.docs, id - 1, t.docs[id - 1].value.kind, NextOf(s, t.docs[id - 1].value.kind));
    IssueLeavesNoStranger(s, t, id, start);
    IssueRepeatsNoNumber(s, t, id, start);
  }

  /**
  Gap-free numbering. In every reachable state the numbers held by issued documents of each
  series are exactly those from the series' start up to the next one to be given out, each held
  by one document; drafts hold none.
  */
  lemma {:induction false} NumberingIsGapFree(s: State, steps: seq<Step>)
    requires Fresh(s) && AllClean(steps)
    ensures Numbered(Run(s, steps), Start(s.nextInvoice, s.nextCreditNote))
  {
    var start := Start(s.nextInvoice, s.nextCreditNote);
    if steps != [] {
      var rest, last := steps[..|steps| - 1], steps[|steps| - 1];
      var prior := Run(s, rest);
      NumberingIsGapFree(s, rest);
      ReachableIsSound(s, rest);
      if last.DoIssue? {
        if Perform(prior, last).Done? {
          IssueKeeps(prior, last.id);
          IssueStaysNumbered(prior, After(prior, last), last.id, start);
        }
      } else {
        StepKeepsDocs(prior, last);
        SequencesOnlyMoveOnIssue(prior, last);
        QuietStepStaysNumbered(prior, After(prior, last), start);
      }
    }
  }

  /**
  When issuing a sound draft is refused, it is never for its figures or its number: only a
  locked date or a missing system account stops it.
  */
  lemma IssueIsNeverRejected(s: State, id: Id, start: Start)
    requires Sound(s) && Numbered(s, start)
    ensures Issue(s, id).Done? <==>
      && Row(s.docs, id).Some? && Row(s.docs, id).value.status == Draft
      && !Locked(s.periods, Row(s.docs, id).value.issueDate)
      && FindKey(s.accounts, ArKey).Some?
      && (Row(s.docs, id).value.vat != 0 ==> FindKey(s.accounts, VatOutputKey).Some?)
  {
    if Row(s.docs, id).Some? {
      var d := Row(s.docs, id).value;
      assert DocSound(s.accounts, s.entries, d);
      PostingsBalance(d, ArAccount(s.accounts), VatOutAccount(s.accounts), 0);
      NextNumberIsFree(s, start, d.kind);
      if FindKey(s.accounts, ArKey).Some? && (d.vat != 0 ==> FindKey(s.accounts, VatOutputKey).Some?) {
        DocRowsAccepted(s.accounts, d, ArAccount(s.accounts), VatOutAccount(s.accounts));
      }
    }
  }
}
