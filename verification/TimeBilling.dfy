/** Hours are billed once: no time entry is on two lines of documents that have not been voided. */
module TimeBilling {
  import opened Options
  import opened Sums
  import opened Amounts
  import opened Ledger
  import opened Documents
  import opened Books
  import opened Soundness

  function LinksTo(t: Id): DocLine -> int {
    (l: DocLine) => if l.timeEntry == t then 1 else 0
  }

  function DocLinks(t: Id): Option<Doc> -> int {
    (row: Option<Doc>) => if row.Some? && row.value.status != Void then Sum(row.value.lines, LinksTo(t)) else 0
  }

  /** On how many lines of non-void documents a time entry is. */
  function TimesBilled(docs: seq<Option<Doc>>, t: Id): int {
    Sum(docs, DocLinks(t))
  }

  predicate NoLinks(lines: seq<DocLine>) {
    forall i :: 0 <= i < |lines| ==> lines[i].timeEntry == 0
  }

  /** An edited draft may keep or drop the links it has, not add one or repeat one. */
  ghost predicate KeepsLinks(s: State, id: Id, lines: seq<DocLine>) {
    Row(s.docs, id).Some? ==>
      forall t :: t != 0 ==> Sum(lines, LinksTo(t)) <= Sum(Row(s.docs, id).value.lines, LinksTo(t))
  }

  /** Links to the timesheet are made by drafting from it, and by nothing else. */
  ghost predicate LinksFromTimesheet(s: State, step: Step) {
    match step
    case DoCreateDraft(input) => NoLinks(input.lines)
    case DoCreditNote(_, lines) => NoLinks(lines)
    case DoUpdateDraft(id, input) => KeepsLinks(s, id, input.lines)
    case _ => true
  }

  lemma PreparedKeepsLinks(s: State, input: DocInput, t: Id)
    requires Prepare(s, input).Passed?
    ensures Sum(Prepare(s, input).row.lines, LinksTo(t)) == Sum(input.lines, LinksTo(t))
  {
    var p := PricingFor(s, input.reverseCharge).value;
    var lines := PriceLines(p, input.lines).value;
    forall i | 0 <= i < |lines|
      ensures LinksTo(t)(lines[i]) == LinksTo(t)(input.lines[i])
    {
      assert PriceLine(p, input.lines[i]) == Some(lines[i]);
    }
    SameLinesSameSums(lines, input.lines, LinksTo(t));
  }

  lemma NotSpokenForIsUnbilled(docs: seq<Option<Doc>>, t: Id)
    requires !SpokenFor(docs, t)
    ensures TimesBilled(docs, t) == 0
  {
    forall i | 0 <= i < |docs|
      ensures DocLinks(t)(docs[i]) == 0
    {
      if docs[i].Some? && docs[i].value.status != Void {
        assert !BillsTime(docs[i].value, t);
        SumNone(docs[i].value.lines, LinksTo(t));
      }
    }
    SumNone(docs, DocLinks(t));
  }

  /** A selection of distinct entries gives each at most one line. */
  lemma OneLineEach(lines: seq<DocLine>, t: Id)
    requires forall i, j :: 0 <= i < j < |lines| ==> lines[i].timeEntry != lines[j].timeEntry
    ensures Sum(lines, LinksTo(t)) <= 1
    ensures (forall i :: 0 <= i < |lines| ==> lines[i].timeEntry != t) ==> Sum(lines, LinksTo(t)) == 0
    decreases |lines|
  {
    if lines != [] {
      var rest := lines[..|lines| - 1];
      OneLineEach(rest, t);
      if lines[|lines| - 1].timeEntry == t {
        assert forall i :: 0 <= i < |rest| ==> rest[i].timeEntry != t;
      }
    }
  }

  // ---- one step ----

  lemma AppendingDraft(s: State, input: DocInput, t: Id)
    requires CreateDraft(s, input).Done?
    ensures TimesBilled(CreateDraft(s, input).state.docs, t) == TimesBilled(s.docs, t) + Sum(input.lines, LinksTo(t))
  {
    PreparedKeepsLinks(s, input, t);
    SumSnoc(s.docs, Some(Prepare(s, input).row), DocLinks(t));
  }

  lemma TimeInputLinks(s: State, ids: seq<Id>, income: Id, t: Id)
    requires AllLogged(s, ids) && forall i, j :: 0 <= i < j < |ids| ==> ids[i] != ids[j]
    ensures Sum(TimeInput(s, ids, income).lines, LinksTo(t)) <= if t in ids then 1 else 0
  {
    var lines := TimeInput(s, ids, income).lines;
    assert forall i :: 0 <= i < |ids| ==> lines[i].timeEntry == ids[i];
    OneLineEach(lines, t);
  }

  lemma BillingTime(s: State, f: TimeFilter, t: Id)
    requires BillTime(s, f).Done? && TimesBilled(s.docs, t) <= 1
    ensures TimesBilled(BillTime(s, f).state.docs, t) <= 1
  {
    var ids := Unbilled(s, f);
    var income := FindKey(s.accounts, SalesKey).value;
    AppendingDraft(s, TimeInput(s, ids, income), t);
    TimeInputLinks(s, ids, income, t);
    if t in ids {
      NotSpokenForIsUnbilled(s.docs, t);
    }
  }

  lemma RaisingCreditNote(s: State, id: Id, lines: seq<DocLine>, t: Id)
    requires RaiseCreditNote(s, id, lines).Done? && NoLinks(lines) && t != 0
    ensures TimesBilled(RaiseCreditNote(s, id, lines).state.docs, t) == TimesBilled(s.docs, t)
  {
    var input := CreditInput(s, id, Row(s.docs, id).value, lines);
    AppendingDraft(s, input, t);
    SumNone(input.lines, LinksTo(t));
  }

  lemma ReplacingRow(docs: seq<Option<Doc>>, id: Id, row: Option<Doc>, t: Id)
    requires Row(docs, id).Some? && DocLinks(t)(row) <= DocLinks(t)(docs[id - 1])
    ensures TimesBilled(docs[id - 1 := row], t) <= TimesBilled(docs, t)
  {
    SumSet(docs, id - 1, row, DocLinks(t));
  }

  lemma UpdatingDraft(s: State, id: Id, input: DocInput, t: Id)
    requires UpdateDraft(s, id, input).Done? && KeepsLinks(s, id, input.lines) && t != 0
    ensures TimesBilled(UpdateDraft(s, id, input).state.docs, t) <= TimesBilled(s.docs, t)
  {
    PreparedKeepsLinks(s, input.(kind := Row(s.docs, id).value.kind), t);
    ReplacingRow(s.docs, id, UpdateDraft(s, id, input).state.docs[id - 1], t);
  }

  lemma DeletingDraft(s: State, id: Id, t: Id)
    requires DeleteDraft(s, id).Done?
    ensures TimesBilled(DeleteDraft(s, id).state.docs, t) <= TimesBilled(s.docs, t)
  {
    SumNonNegative(s.docs[id - 1].value.lines, LinksTo(t));
    ReplacingRow(s.docs, id, None, t);
  }

  lemma Issuing(s: State, id: Id, t: Id)
    requires Issue(s, id).Done?
    ensures TimesBilled(Issue(s, id).state.docs, t) <= TimesBilled(s.docs, t)
  {
    ReplacingRow(s.docs, id, Issue(s, id).state.docs[id - 1], t);
  }

  lemma Voiding(s: State, id: Id, t: Id)
    requires VoidDoc(s, id).Done?
    ensures TimesBilled(VoidDoc(s, id).state.docs, t) <= TimesBilled(s.docs, t)
  {
    SumNonNegative(s.docs[id - 1].value.lines, LinksTo(t));
    ReplacingRow(s.docs, id, VoidDoc(s, id).state.docs[id - 1], t);
  }

  lemma Recalculating(docs: seq<Option<Doc>>, payments: seq<Option<Payment>>, id: Id, t: Id)
    ensures TimesBilled(Recalc(docs, payments, id), t) <= TimesBilled(docs, t)
  {
    if Row(docs, id).Some? {
      ReplacingRow(docs, id, Recalc(docs, payments, id)[id - 1], t);
    }
  }

  lemma DraftStepBillsOnce(s: State, step: Step, t: Id)
    requires EditsDrafts(step) && Perform(s, step).Done?
    requires t != 0 && TimesBilled(s.docs, t) <= 1 && LinksFromTimesheet(s, step)
    ensures TimesBilled(After(s, step).docs, t) <= 1
  {
    match step
    case DoCreateDraft(input) =>
      AppendingDraft(s, input, t);
      SumNone(input.lines, LinksTo(t));
    case DoBillTime(f) => BillingTime(s, f, t);
    case DoCreditNote(id, lines) => RaisingCreditNote(s, id, lines, t);
    case DoUpdateDraft(id, input) => UpdatingDraft(s, id, input, t);
    case DoDeleteDraft(id) => DeletingDraft(s, id, t);
  }

  lemma StepBillsOnce(s: State, step: Step, t: Id)
    requires t != 0 && TimesBilled(s.docs, t) <= 1 && LinksFromTimesheet(s, step)
    ensures TimesBilled(After(s, step).docs, t) <= 1
  {
    if EditsDrafts(step) {
      if Perform(s, step).Done? {
        DraftStepBillsOnce(s, step, t);
      }
    } else if MovesDocs(step) {
      if Perform(s, step).Done? {
        match step
        case DoIssue(id) => Issuing(s, id, t);
        case DoVoid(id) => Voiding(s, id, t);
        case DoRecordPayment(p) => Recalculating(s.docs, RecordPayment(s, p).state.payments, p.invoice, t);
        case DoDeletePayment(id) => Recalculating(s.docs, DeletePayment(s, id).state.payments, Row(s.payments, id).value.invoice, t);
      }
    } else {
      DocsUntouched(s, step);
    }
  }

  ghost predicate RunLinksFromTimesheet(s: State, steps: seq<Step>) {
    steps != [] ==>
      && RunLinksFromTimesheet(s, steps[..|steps| - 1])
      && LinksFromTimesheet(Run(s, steps[..|steps| - 1]), steps[|steps| - 1])
  }

  /**
  Time is billed once. From fresh books, however drafts are made, issued, voided and deleted, and
  however the CRM rewrites its timesheet and its invoiced flags in between, no time entry is ever
  on more than one line of the documents that are not void.
  */
  lemma {:induction false} TimeIsBilledOnce(s: State, steps: seq<Step>, t: Id)
    requires Fresh(s) && RunLinksFromTimesheet(s, steps) && t != 0
    ensures TimesBilled(Run(s, steps).docs, t) <= 1
  {
    if steps != [] {
      TimeIsBilledOnce(s, steps[..|steps| - 1], t);
      StepBillsOnce(Run(s, steps[..|steps| - 1]), steps[|steps| - 1], t);
    }
  }

  predicate Flagged(s: State, t: Id) {
    Row(s.time, t).Some? && Row(s.time, t).value.invoiced
  }

  lemma IssueFlags(s: State, id: Id, issued: State, t: Id)
    requires Issue(s, id) == Done(issued, id) && BillsTime(Row(s.docs, id).value, t) && Row(s.time, t).Some?
    ensures Flagged(issued, t)
  {
    IssueFlagsTime(s, id);
  }

  lemma FlaggedIsNotOffered(s: State, f: TimeFilter, t: Id)
    requires Flagged(s, t)
    ensures !IsUnbilled(s, f, t)
  {
  }

  lemma IssueFlagsTime(s: State, id: Id)
    requires Issue(s, id).Done?
    ensures Row(s.docs, id).Some? && Issue(s, id).state.time == FlagTime(s.time, Row(s.docs, id).value)
  {
  }

  /** Issuing flags exactly the entries its lines name, and changes nothing else about the timesheet. */
  lemma IssuingFlagsWhatItBills(s: State, id: Id, t: Id)
    requires Issue(s, id).Done?
    ensures Row(s.docs, id).Some?
    ensures var lines, before := Row(s.docs, id).value.lines, Row(s.time, t);
            Row(Issue(s, id).state.time, t)
              == if before.Some? && exists j :: 0 <= j < |lines| && lines[j].timeEntry == t then Some(before.value.(invoiced := true)) else before
  {
    IssueFlagsTime(s, id);
  }

  lemma FlaggingKeepsFlags(time: seq<Option<TimeEntry>>, d: Doc, t: Id)
    requires Row(time, t).Some? && Row(time, t).value.invoiced
    ensures Row(FlagTime(time, d), t).Some? && Row(FlagTime(time, d), t).value.invoiced
  {
  }

  /** Only the CRM clears a flag. */
  lemma StepKeepsFlag(s: State, step: Step, t: Id)
    requires Flagged(s, t) && !step.CrmChanges?
    ensures Flagged(After(s, step), t)
  {
    if step.DoIssue? {
      if Perform(s, step).Done? {
        IssueFlagsTime(s, step.id);
        FlaggingKeepsFlags(s.time, Row(s.docs, step.id).value, t);
      }
    } else {
      TimesheetStands(s, step);
    }
  }

  lemma TimesheetStands(s: State, step: Step)
    requires !step.CrmChanges? && !step.DoIssue?
    ensures After(s, step).time == s.time
  {
  }

  lemma {:induction false} RunKeepsFlag(s: State, steps: seq<Step>, t: Id)
    requires Flagged(s, t) && forall i :: 0 <= i < |steps| ==> !steps[i].CrmChanges?
    ensures Flagged(Run(s, steps), t)
  {
    if steps != [] {
      RunKeepsFlag(s, steps[..|steps| - 1], t);
      StepKeepsFlag(Run(s, steps[..|steps| - 1]), steps[|steps| - 1], t);
    }
  }

  /**
  Voiding does not put hours back on offer: issuing flags them in the CRM, and whatever the books
  do afterwards, voiding included, they stay unavailable until the CRM itself clears the flag.
  */
  lemma VoidingDoesNotReleaseTime(s: State, id: Id, issued: State, steps: seq<Step>, t: Id, f: TimeFilter)
    requires Issue(s, id) == Done(issued, id) && BillsTime(Row(s.docs, id).value, t) && Row(s.time, t).Some?
    requires forall i :: 0 <= i < |steps| ==> !steps[i].CrmChanges?
    ensures !IsUnbilled(Run(issued, steps), f, t)
  {
    IssueFlags(s, id, issued, t);
    RunKeepsFlag(issued, steps, t);
    FlaggedIsNotOffered(Run(issued, steps), f, t);
  }
}
