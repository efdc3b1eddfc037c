/**
What every step does to the journal and to the chart of accounts: the entries it may add, and
what it must leave alone.
*/
module Journal {
  import opened Options
  import opened Sums
  import opened Text
  import opened Amounts
  import opened Ledger
  import opened Documents
  import opened Books

  /** The entry a step appended, if it appended one. */
  function NewEntry(s: State, t: State): Option<Entry> {
    if |t.entries| == |s.entries| + 1 then Some(t.entries[|s.entries|]) else None
  }

  /** The journal is append-only, one good entry at a time, dated outside every locked period. */
  ghost predicate JournalGrows(s: State, t: State) {
    || t.entries == s.entries
    || (&& NewEntry(s, t).Some?
        && t.entries == s.entries + [NewEntry(s, t).value]
        && GoodEntry(s.accounts, NewEntry(s, t).value)
        && !Locked(s.periods, NewEntry(s, t).value.date))
  }

  lemma Appended(s: State, t: State, e: Entry)
    requires t.entries == s.entries + [e]
    ensures NewEntry(s, t) == Some(e)
  {
  }

  lemma ReversalGrows(s: State, id: Id, date: Option<Date>)
    requires Reverse(s, id, date).Done?
    ensures 1 <= id <= |s.entries|
    ensures var t := Reverse(s, id, date).state;
            var d := date.GetOr(s.today);
            && JournalGrows(s, t)
            && t == AddEntry(s, Entry(d, s.entries[id - 1].source, s.entries[id - 1].sourceId, id, Mirror(s.entries[id - 1].lines)))
            && !Locked(s.periods, d)
  {
  }

  lemma IssueGrows(s: State, id: Id)
    requires Issue(s, id).Done?
    ensures JournalGrows(s, Issue(s, id).state)
  {
    var doc := Row(s.docs, id).value;
    var postings := Postings(doc, ArAccount(s.accounts), VatOutAccount(s.accounts));
    NonzeroMovesTheSame(postings, 0);
    BalancedIffNetsToZero(postings);
    BalancedIffNetsToZero(Nonzero(postings));
  }

  lemma TwoLinesBalance(a: Id, b: Id, amount: Money)
    ensures Balanced([Line(a, amount, 0), Line(b, 0, amount)])
    ensures forall c :: NetOn([Line(a, amount, 0), Line(b, 0, amount)], c) == (if c == a then amount else 0) - (if c == b then amount else 0)
  {
    var x, y := Line(a, amount, 0), Line(b, 0, amount);
    assert [x, y] == [] + [x] + [y];
    forall f: Line -> int
      ensures Sum([x, y], f) == f(x) + f(y)
    {
      SumSnoc([], x, f);
      SumSnoc([x], y, f);
    }
  }

  lemma ThreeLines(x: Line, y: Line, z: Line, f: Line -> int)
    ensures Sum([x, y, z], f) == f(x) + f(y) + f(z)
  {
    assert [x, y, z] == [x, y] + [z] && [x, y] == [x] + [y] && [x] == [] + [x];
    SumSnoc([], x, f);
    SumSnoc([x], y, f);
    SumSnoc([x, y], z, f);
  }

  lemma ExpenseBalances(x: ExpenseRow, vatIn: Id)
    requires x.total == x.net + x.vat
    ensures Balanced(ExpenseLines(x, vatIn))
  {
    if x.vat != 0 && x.reclaimable {
      var a, b, c := Line(x.account, x.net, 0), Line(vatIn, x.vat, 0), Line(x.paidFrom, 0, x.total);
      assert ExpenseLines(x, vatIn) == [a, b, c];
      ThreeLines(a, b, c, AnyDebit());
      ThreeLines(a, b, c, AnyCredit());
    } else {
      TwoLinesBalance(x.account, x.paidFrom, x.total);
      assert ExpenseLines(x, vatIn) == [Line(x.account, x.total, 0), Line(x.paidFrom, 0, x.total)];
    }
  }

  lemma ExpenseGrows(s: State, input: ExpenseInput)
    requires RecordExpense(s, input).Done?
    ensures JournalGrows(s, RecordExpense(s, input).state)
  {
    var t := RecordExpense(s, input).state;
    ExpenseBalances(t.expenses[|s.expenses|].value, VatInAccount(s.accounts));
  }

  lemma PaymentGrows(s: State, input: PaymentInput)
    requires RecordPayment(s, input).Done?
    ensures JournalGrows(s, RecordPayment(s, input).state)
  {
    var t := RecordPayment(s, input).state;
    var p := t.payments[|s.payments|].value;
    TwoLinesBalance(p.deposit, ArAccount(s.accounts), p.amount);
  }

  lemma FundingGrows(s: State, input: FundingInput)
    requires RecordFunding(s, input).Done?
    ensures JournalGrows(s, RecordFunding(s, input).state)
  {
    var t := RecordFunding(s, input).state;
    var f := t.fundings[|s.fundings|].value;
    TwoLinesBalance(f.cash, f.owner, f.amount);
    TwoLinesBalance(f.owner, f.cash, f.amount);
  }

  predicate RecordsOrPosts(step: Step) {
    step.DoPost? || step.DoIssue? || step.DoRecordPayment? || step.DoRecordExpense? || step.DoRecordFunding?
  }

  predicate Reverses(step: Step) {
    step.DoReverse? || step.DoVoid? || step.DoDeletePayment? || step.DoDeleteExpense? || step.DoDeleteFunding?
  }

  lemma RecordingGrows(s: State, step: Step)
    requires RecordsOrPosts(step) && Perform(s, step).Done?
    ensures JournalGrows(s, After(s, step))
  {
    match step
    case DoPost(date, source, sourceId, reverses, lines) =>
    case DoIssue(id) => IssueGrows(s, id);
    case DoRecordPayment(p) => PaymentGrows(s, p);
    case DoRecordExpense(x) => ExpenseGrows(s, x);
    case DoRecordFunding(f) => FundingGrows(s, f);
  }

  /** A row is reversed only when it has an entry. */
  lemma RowReversalGrows(s: State, entry: Id, date: Option<Date>)
    requires entry != 0 ==> Reverse(s, entry, date).Done?
    ensures entry != 0 ==> JournalGrows(s, Reverse(s, entry, date).state)
  {
    if entry != 0 {
      ReversalGrows(s, entry, date);
    }
  }

  lemma ReversingGrows(s: State, step: Step)
    requires Reverses(step) && Perform(s, step).Done?
    ensures JournalGrows(s, After(s, step))
  {
    match step
    case DoReverse(id, date) => ReversalGrows(s, id, date);
    case DoVoid(id) => RowReversalGrows(s, Row(s.docs, id).value.entry, Some(s.today));
    case DoDeletePayment(id) => RowReversalGrows(s, Row(s.payments, id).value.entry, None);
    case DoDeleteExpense(id) => RowReversalGrows(s, Row(s.expenses, id).value.entry, None);
    case DoDeleteFunding(id) => RowReversalGrows(s, Row(s.fundings, id).value.entry, None);
  }

  lemma OthersLeaveJournal(s: State, step: Step)
    requires !RecordsOrPosts(step) && !Reverses(step)
    ensures After(s, step).entries == s.entries
  {
  }

  /** Every step of every kind: the journal grows by at most one good entry in an open period. */
  lemma StepGrowsJournal(s: State, step: Step)
    ensures JournalGrows(s, After(s, step))
  {
    if RecordsOrPosts(step) {
      if Perform(s, step).Done? {
        RecordingGrows(s, step);
      }
    } else if Reverses(step) {
      if Perform(s, step).Done? {
        ReversingGrows(s, step);
      }
    } else {
      OthersLeaveJournal(s, step);
    }
  }

  /** No account is removed, re-keyed, or moved to another statement once anything is posted to it. */
  ghost predicate ChartKept(s: State, t: State) {
    && ChartGrows(s.accounts, t.accounts)
    && forall id :: HasAccount(s.accounts, id) && HasPostings(s.entries, id) ==>
         t.accounts[id - 1].kind == s.accounts[id - 1].kind
  }

  ghost predicate ChangesChart(step: Step) {
    step.DoCreateAccount? || step.DoUpdateAccount? || step.DoArchiveAccount?
  }

  lemma OthersLeaveChart(s: State, step: Step)
    requires !ChangesChart(step)
    ensures After(s, step).accounts == s.accounts
  {
  }

  lemma StepKeepsChart(s: State, step: Step)
    ensures ChartKept(s, After(s, step))
  {
    if !ChangesChart(step) {
      OthersLeaveChart(s, step);
    }
  }

  lemma {:induction false} RunKeepsJournal(s: State, steps: seq<Step>)
    requires GoodJournal(s.accounts, s.entries)
    ensures var t := Run(s, steps);
            && GoodJournal(t.accounts, t.entries)
            && s.entries <= t.entries
            && ChartKept(s, t)
  {
    if steps != [] {
      var prior := Run(s, steps[..|steps| - 1]);
      RunKeepsJournal(s, steps[..|steps| - 1]);
      StepGrowsJournal(prior, steps[|steps| - 1]);
      StepKeepsChart(prior, steps[|steps| - 1]);
      PostingsPersist(s, prior);
    }
  }

  lemma PostingsPersist(s: State, t: State)
    requires s.entries <= t.entries
    ensures forall id :: HasPostings(s.entries, id) ==> HasPostings(t.entries, id)
  {
    forall id | HasPostings(s.entries, id)
      ensures HasPostings(t.entries, id)
    {
      var i, j :| 0 <= i < |s.entries| && 0 <= j < |s.entries[i].lines| && s.entries[i].lines[j].account == id;
      assert t.entries[i].lines[j].account == id;
    }
  }
}
