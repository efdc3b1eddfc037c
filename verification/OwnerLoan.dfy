/** The owner's loan: when the guards on repayments and deletions keep it from being overdrawn. */
module OwnerLoan {
  import opened Options
  import opened Sums
  import opened Text
  import opened Amounts
  import opened Ledger
  import opened Documents
  import opened Books
  import opened Journal
  import opened Soundness
  import opened Reconciliation
  import opened Removals

  predicate Touches(lines: seq<Line>, a: Id) {
    exists j :: 0 <= j < |lines| && lines[j].account == a
  }

  function LoanAccount(s: State): Id {
    FindKey(s.accounts, OwnerLoanKey).GetOr(0)
  }

  ghost predicate NeverOverdrawn(s: State) {
    forall d :: LoanBalance(s, d) >= 0
  }

  /** No entry on the loan account is dated after this day. */
  ghost predicate LoanSettledBy(s: State, day: Date) {
    forall i :: 0 <= i < |s.entries| && Touches(s.entries[i].lines, LoanAccount(s)) ==> s.entries[i].date <= day
  }

  /** A loan or repayment on the default loan account. */
  predicate IsOnLoan(s: State, row: Option<Funding>) {
    row.Some? && row.value.kind != Capital && row.value.owner == LoanAccount(s) && row.value.cash != LoanAccount(s)
  }

  /** The row a recording adds. */
  function NewFunding(s: State, input: FundingInput): Option<Funding> {
    match RecordFunding(s, input)
    case Refused(_) => None
    case Done(t, _) => t.fundings[|t.fundings| - 1]
  }

  predicate KeepsOffLoan(s: State, t: State) {
    match NewEntry(s, t)
    case None => true
    case Some(e) => !Touches(e.lines, LoanAccount(s))
  }

  /**
  The discipline: what touches the loan account is funding recorded no earlier than anything
  already there and no later than today, or its deletion; and the clock does not run backwards.
  */
  ghost predicate Disciplined(s: State, step: Step) {
    match step
    case DateChanges(today) => s.today <= today
    case DoRecordFunding(input) =>
      || KeepsOffLoan(s, After(s, step))
      || (&& IsOnLoan(s, NewFunding(s, input))
          && LoanSettledBy(s, input.receivedOn.GetOr(s.today))
          && input.receivedOn.GetOr(s.today) <= s.today)
    case DoDeleteFunding(id) =>
      || KeepsOffLoan(s, After(s, step))
      || IsOnLoan(s, Row(s.fundings, id))
    case _ => KeepsOffLoan(s, After(s, step))
  }

  lemma UntouchedBalance(s: State, t: State)
    requires JournalGrows(s, t) && ChartGrows(s.accounts, t.accounts) && KeepsOffLoan(s, t)
    ensures LoanAccount(t) == LoanAccount(s)
    ensures forall d :: LoanBalance(t, d) == LoanBalance(s, d)
    ensures forall day :: LoanSettledBy(s, day) ==> LoanSettledBy(t, day)
  {
    KeysStayPut(s.accounts, t.accounts, OwnerLoanKey);
    if t.entries != s.entries {
      var e := NewEntry(s, t).value;
      SumNone(e.lines, NetTo(LoanAccount(s)));
      forall d
        ensures LoanBalance(t, d) == LoanBalance(s, d)
      {
        TotalGrows(s.entries, e, UpTo(d), NetTo(LoanAccount(s)));
      }
    }
  }

  /** Once nothing later is on the account, the balance is the same on every later day. */
  lemma BalanceIsFlat(s: State, day: Date, later: Date)
    requires LoanSettledBy(s, day) && day <= later
    ensures LoanBalance(s, later) == LoanBalance(s, day)
  {
    var a := LoanAccount(s);
    forall i | 0 <= i < |s.entries|
      ensures InWindow(UpTo(later), NetTo(a))(s.entries[i]) == InWindow(UpTo(day), NetTo(a))(s.entries[i])
    {
      if !Touches(s.entries[i].lines, a) {
        SumNone(s.entries[i].lines, NetTo(a));
      }
    }
    SumSame(s.entries, InWindow(UpTo(later), NetTo(a)), InWindow(UpTo(day), NetTo(a)));
  }

  /** An entry on the loan account, crediting it by this much. */
  lemma LoanMoves(s: State, t: State, e: Entry, amount: Money)
    requires t.entries == s.entries + [e] && t.accounts == s.accounts
    requires FindKey(s.accounts, OwnerLoanKey).Some? && NetOn(e.lines, LoanAccount(s)) == -amount
    ensures forall d :: LoanBalance(t, d) == LoanBalance(s, d) + if e.date <= d then amount else 0
    ensures forall day :: LoanSettledBy(s, day) && e.date <= day ==> LoanSettledBy(t, day)
  {
    forall d
      ensures LoanBalance(t, d) == LoanBalance(s, d) + if e.date <= d then amount else 0
    {
      TotalGrows(s.entries, e, UpTo(d), NetTo(LoanAccount(s)));
    }
  }

  lemma FundingOnLoan(f: Funding, loan: Id)
    requires f.kind != Capital && f.owner == loan && f.cash != loan
    ensures NetOn(FundingLines(f), loan) == if f.kind == Loan then -f.amount else f.amount
  {
    TwoLinesBalance(f.cash, f.owner, f.amount);
    TwoLinesBalance(f.owner, f.cash, f.amount);
  }

  /** What recording a loan or a repayment does, and what its guard knew. */
  lemma RecordingOnLoan(s: State, input: FundingInput)
    requires RecordFunding(s, input).Done? && FindKey(s.accounts, OwnerLoanKey).Some?
    requires IsOnLoan(s, NewFunding(s, input))
    ensures var t, day := RecordFunding(s, input).state, input.receivedOn.GetOr(s.today);
            && input.kind != Capital && input.amount > 0
            && (input.kind == Repayment ==> input.amount <= LoanBalance(s, day))
            && (forall d :: LoanBalance(t, d)
                  == LoanBalance(s, d) + if day <= d then (if input.kind == Loan then input.amount else -input.amount) else 0)
            && LoanAccount(t) == LoanAccount(s)
            && (forall later :: LoanSettledBy(s, later) && day <= later ==> LoanSettledBy(t, later))
  {
    var t := RecordFunding(s, input).state;
    var f := t.fundings[|s.fundings|].value;
    FundingOnLoan(f, LoanAccount(s));
    LoanMoves(s, t, t.entries[|s.entries|], if f.kind == Loan then f.amount else -f.amount);
  }

  lemma MirrorEntry(s: State, id: Id, a: Id) returns (e: Entry)
    requires Reverse(s, id, None).Done?
    ensures Reverse(s, id, None).state == AddEntry(s, e) && e.date == s.today
    ensures 1 <= id <= |s.entries| && NetOn(e.lines, a) == -NetOn(s.entries[id - 1].lines, a)
  {
    ReversalGrows(s, id, None);
    e := Entry(s.today, s.entries[id - 1].source, s.entries[id - 1].sourceId, id, Mirror(s.entries[id - 1].lines));
    MirrorCancels(s.entries[id - 1].lines, a);
  }

  /** Deleting a funding row appends the mirror of its entry, dated today. */
  lemma FundingDeletionEntry(s: State, id: Id, a: Id) returns (e: Entry)
    requires Recorded(s) && DeleteFunding(s, id).Done?
    ensures Row(s.fundings, id).Some?
    ensures var t := DeleteFunding(s, id).state; t.entries == s.entries + [e] && t.accounts == s.accounts
    ensures e.date == s.today && NetOn(e.lines, a) == -NetOn(FundingLines(Row(s.fundings, id).value), a)
  {
    FundingDeletionDrops(s, id);
    FundingPosted(s, id);
    var f := Row(s.fundings, id).value;
    FundingDeletionReverses(s, id, f);
    e := MirrorEntry(s, f.entry, a);
    assert Reverse(s, f.entry, None).state == AddEntry(s, e);
  }

  lemma DeletingOnLoan(s: State, id: Id)
    requires Recorded(s) && DeleteFunding(s, id).Done? && FindKey(s.accounts, OwnerLoanKey).Some?
    requires IsOnLoan(s, Row(s.fundings, id))
    ensures var t, f := DeleteFunding(s, id).state, Row(s.fundings, id).value;
            && (f.kind == Loan ==> f.amount <= LoanBalance(s, s.today))
            && (forall d :: LoanBalance(t, d)
                  == LoanBalance(s, d) + if s.today <= d then (if f.kind == Loan then -f.amount else f.amount) else 0)
            && LoanAccount(t) == LoanAccount(s)
            && (forall later :: LoanSettledBy(s, later) && s.today <= later ==> LoanSettledBy(t, later))
  {
    var t := DeleteFunding(s, id).state;
    var f := Row(s.fundings, id).value;
    var e := FundingDeletionEntry(s, id, LoanAccount(s));
    FundingOnLoan(f, LoanAccount(s));
    LoanMoves(s, t, e, if f.kind == Loan then -f.amount else f.amount);
  }

  ghost predicate LoanSound(s: State) {
    NeverOverdrawn(s) && LoanSettledBy(s, s.today)
  }

  lemma RecordingKeepsLoanSound(s: State, input: FundingInput)
    requires LoanSound(s) && RecordFunding(s, input).Done? && FindKey(s.accounts, OwnerLoanKey).Some?
    requires IsOnLoan(s, NewFunding(s, input))
    requires LoanSettledBy(s, input.receivedOn.GetOr(s.today)) && input.receivedOn.GetOr(s.today) <= s.today
    ensures LoanSound(RecordFunding(s, input).state)
  {
    RecordingOnLoan(s, input);
    var t, day := RecordFunding(s, input).state, input.receivedOn.GetOr(s.today);
    forall d
      ensures LoanBalance(t, d) >= 0
    {
      if day <= d {
        BalanceIsFlat(s, day, d);
      }
    }
  }

  lemma DeletingKeepsLoanSound(s: State, id: Id)
    requires LoanSound(s) && Sound(s) && DeleteFunding(s, id).Done? && FindKey(s.accounts, OwnerLoanKey).Some?
    requires IsOnLoan(s, Row(s.fundings, id))
    ensures LoanSound(DeleteFunding(s, id).state)
  {
    DeletingOnLoan(s, id);
    var t, f := DeleteFunding(s, id).state, Row(s.fundings, id).value;
    assert FundingSound(s.entries, f);
    forall d
      ensures LoanBalance(t, d) >= 0
    {
      if s.today <= d {
        BalanceIsFlat(s, s.today, d);
      }
    }
  }

  lemma StepKeepsLoanSound(s: State, step: Step)
    requires Sound(s) && LoanSound(s) && Disciplined(s, step) && FindKey(s.accounts, OwnerLoanKey).Some?
    ensures LoanSound(After(s, step))
  {
    if step.DateChanges? {
      assert After(s, step) == s.(today := step.today);
      assert forall d :: LoanBalance(After(s, step), d) == LoanBalance(s, d);
    } else if KeepsOffLoan(s, After(s, step)) {
      StepGrowsJournal(s, step);
      StepKeepsChart(s, step);
      UntouchedBalance(s, After(s, step));
      ClockStands(s, step);
    } else if step.DoRecordFunding? {
      RecordingKeepsLoanSound(s, step.funding);
    } else {
      DeletingKeepsLoanSound(s, step.id);
    }
  }

  lemma ClockStands(s: State, step: Step)
    requires !step.DateChanges?
    ensures After(s, step).today == s.today
  {
  }

  ghost predicate RunDisciplined(s: State, steps: seq<Step>) {
    steps != [] ==>
      && RunDisciplined(s, steps[..|steps| - 1])
      && Disciplined(Run(s, steps[..|steps| - 1]), steps[|steps| - 1])
  }

  lemma {:induction false} DisciplinedRun(s: State, steps: seq<Step>)
    requires Fresh(s) && AllClean(steps) && RunDisciplined(s, steps) && FindKey(s.accounts, OwnerLoanKey).Some?
    ensures LoanSound(Run(s, steps))
  {
    if steps != [] {
      var rest := steps[..|steps| - 1];
      DisciplinedRun(s, rest);
      ReachableIsSound(s, rest);
      RunKeepsJournal(s, rest);
      KeysStayPut(s.accounts, Run(s, rest).accounts, OwnerLoanKey);
      StepKeepsLoanSound(Run(s, rest), steps[|steps| - 1]);
    }
  }

  /**
  The owner's loan is never overdrawn, as of any date past or future, in any run from fresh books
  whose steps on the loan account are dated in order and not in the future.
  */
  lemma LoanIsNeverOverdrawn(s: State, steps: seq<Step>)
    requires Fresh(s) && AllClean(steps) && RunDisciplined(s, steps)
    ensures NeverOverdrawn(Run(s, steps))
  {
    if FindKey(s.accounts, OwnerLoanKey).Some? {
      DisciplinedRun(s, steps);
    } else {
      RunKeepsJournal(s, steps);
      KeysStayPut(s.accounts, Run(s, steps).accounts, OwnerLoanKey);
    }
  }

  // ---- exactly when the loan stays whole ----

  /** The balance covers what the entry takes out of the loan, on its date and every later one. */
  ghost predicate Covered(s: State, e: Entry) {
    forall d :: e.date <= d ==> NetOn(e.lines, LoanAccount(s)) <= LoanBalance(s, d)
  }

  lemma EntryMovesLoan(s: State, t: State, e: Entry, d: Date)
    requires t.entries == s.entries + [e] && ChartGrows(s.accounts, t.accounts) && FindKey(s.accounts, OwnerLoanKey).Some?
    ensures LoanBalance(t, d) == LoanBalance(s, d) - if e.date <= d then NetOn(e.lines, LoanAccount(s)) else 0
  {
    KeysStayPut(s.accounts, t.accounts, OwnerLoanKey);
    TotalGrows(s.entries, e, UpTo(d), NetTo(LoanAccount(s)));
  }

  /** Whatever an entry is for: it leaves no date overdrawn if and only if the balance covers it. */
  lemma WhenEntryKeepsLoanWhole(s: State, t: State, e: Entry)
    requires NeverOverdrawn(s) && FindKey(s.accounts, OwnerLoanKey).Some?
    requires t.entries == s.entries + [e] && ChartGrows(s.accounts, t.accounts)
    ensures NeverOverdrawn(t) <==> Covered(s, e)
  {
    forall d
      ensures LoanBalance(t, d) == LoanBalance(s, d) - if e.date <= d then NetOn(e.lines, LoanAccount(s)) else 0
    {
      EntryMovesLoan(s, t, e, d);
    }
    if Covered(s, e) {
      forall d
        ensures LoanBalance(t, d) >= 0
      {
        assert LoanBalance(s, d) >= 0;
      }
    }
    if NeverOverdrawn(t) {
      forall d | e.date <= d
        ensures NetOn(e.lines, LoanAccount(s)) <= LoanBalance(s, d)
      {
        assert LoanBalance(t, d) >= 0;
      }
    }
  }

  /**
  Over any step of any kind, funding or not: a loan that was never overdrawn stays so if and only
  if the balance covers the entry the step appends, on its date and on every later one.
  */
  lemma WhenStepKeepsLoanWhole(s: State, step: Step)
    requires NeverOverdrawn(s) && FindKey(s.accounts, OwnerLoanKey).Some?
    ensures NeverOverdrawn(After(s, step))
       <==> (NewEntry(s, After(s, step)).Some? ==> Covered(s, NewEntry(s, After(s, step)).value))
  {
    var t := After(s, step);
    StepGrowsJournal(s, step);
    StepKeepsChart(s, step);
    if t.entries == s.entries {
      SameLoan(s, t);
    } else {
      WhenEntryKeepsLoanWhole(s, t, NewEntry(s, t).value);
    }
  }

  lemma SameLoan(s: State, t: State)
    requires t.entries == s.entries && ChartGrows(s.accounts, t.accounts)
    ensures forall d :: LoanBalance(t, d) == LoanBalance(s, d)
  {
    KeysStayPut(s.accounts, t.accounts, OwnerLoanKey);
  }

  /**
  The guard on a repayment looks at one date only. A recorded repayment keeps the loan whole
  exactly when the balance covers it on every later date too.
  */
  lemma WhenRepaymentKeepsLoanWhole(s: State, input: FundingInput)
    requires NeverOverdrawn(s) && FindKey(s.accounts, OwnerLoanKey).Some?
    requires RecordFunding(s, input).Done? && IsOnLoan(s, NewFunding(s, input)) && input.kind == Repayment
    ensures NeverOverdrawn(RecordFunding(s, input).state)
       <==> forall d :: input.receivedOn.GetOr(s.today) <= d ==> input.amount <= LoanBalance(s, d)
  {
    var e := RepaymentEntry(s, input);
    WhenEntryKeepsLoanWhole(s, RecordFunding(s, input).state, e);
  }

  lemma RepaymentEntry(s: State, input: FundingInput) returns (e: Entry)
    requires RecordFunding(s, input).Done? && IsOnLoan(s, NewFunding(s, input)) && input.kind == Repayment
    ensures var t := RecordFunding(s, input).state; t.entries == s.entries + [e] && t.accounts == s.accounts
    ensures e.date == input.receivedOn.GetOr(s.today) && NetOn(e.lines, LoanAccount(s)) == input.amount
  {
    var t := RecordFunding(s, input).state;
    e := t.entries[|s.entries|];
    FundingOnLoan(t.fundings[|s.fundings|].value, LoanAccount(s));
  }

  /** A reversal, by hand or behind a deletion, gives back what the entry gave and takes out what it took. */
  lemma WhenReversalKeepsLoanWhole(s: State, id: Id, date: Option<Date>)
    requires NeverOverdrawn(s) && FindKey(s.accounts, OwnerLoanKey).Some? && Reverse(s, id, date).Done?
    ensures 1 <= id <= |s.entries|
    ensures NeverOverdrawn(Reverse(s, id, date).state)
       <==> forall d :: date.GetOr(s.today) <= d ==> -NetOn(s.entries[id - 1].lines, LoanAccount(s)) <= LoanBalance(s, d)
  {
    ReversalGrows(s, id, date);
    var was := s.entries[id - 1];
    var e := Entry(date.GetOr(s.today), was.source, was.sourceId, id, Mirror(was.lines));
    MirrorCancels(was.lines, LoanAccount(s));
    WhenEntryKeepsLoanWhole(s, AddEntry(s, e), e);
  }

  /**
  An expense can be paid out of the owner's loan, and deleting it has no guard at all. It keeps
  the loan whole exactly when the balance covers, today and later, what the expense lent.
  */
  lemma WhenExpenseDeletionKeepsLoanWhole(s: State, id: Id)
    requires NeverOverdrawn(s) && Recorded(s) && FindKey(s.accounts, OwnerLoanKey).Some? && DeleteExpense(s, id).Done?
    ensures Row(s.expenses, id).Some?
    ensures NeverOverdrawn(DeleteExpense(s, id).state)
       <==> forall d :: s.today <= d ==>
              -NetOn(ExpenseLines(Row(s.expenses, id).value, VatInAccount(s.accounts)), LoanAccount(s)) <= LoanBalance(s, d)
  {
    ExpenseDeletionDrops(s, id);
    ExpensePosted(s, id);
    var x := Row(s.expenses, id).value;
    ExpenseDeletionReverses(s, id, x);
    WhenReversalKeepsLoanWhole(s, x.entry, None);
    ReversalLeavesTheChart(s, x.entry, None);
    SameJournalSameLoan(Reverse(s, x.entry, None).state, DeleteExpense(s, id).state);
  }

  lemma ReversalLeavesTheChart(s: State, id: Id, date: Option<Date>)
    requires Reverse(s, id, date).Done?
    ensures Reverse(s, id, date).state.accounts == s.accounts
  {
  }

  lemma SameJournalSameLoan(s: State, t: State)
    requires t.entries == s.entries && t.accounts == s.accounts
    ensures NeverOverdrawn(s) <==> NeverOverdrawn(t)
  {
    assert forall d :: LoanBalance(t, d) == LoanBalance(s, d);
  }

  lemma RepaymentRow(s: State, input: FundingInput)
    requires RecordFunding(s, input).Done? && input.kind == Repayment && input.owner != 0
    ensures var t, day := RecordFunding(s, input).state, input.receivedOn.GetOr(s.today);
            && NewFunding(s, input).Some? && |t.entries| == |s.entries| + 1
            && var f := NewFunding(s, input).value;
            && f.owner == input.owner && f.cash != f.owner && f.amount == input.amount <= LoanBalance(s, day)
            && t.entries == s.entries + [t.entries[|s.entries|]] && t.accounts == s.accounts
            && t.entries[|s.entries|].date == day
            && t.entries[|s.entries|].lines == [Line(f.owner, f.amount, 0), Line(f.cash, 0, f.amount)]
  {
  }

  /**
  The guard also watches one account only. A repayment that names another liability account is
  checked against the default loan, whose balance it leaves alone, and not against the account
  it draws down.
  */
  lemma GuardWatchesTheDefaultLoan(s: State, input: FundingInput, d: Date)
    requires RecordFunding(s, input).Done? && input.kind == Repayment && FindKey(s.accounts, OwnerLoanKey).Some?
    requires input.owner != 0 && input.owner != LoanAccount(s) && NewFunding(s, input).value.cash != LoanAccount(s)
    ensures input.amount <= LoanBalance(s, input.receivedOn.GetOr(s.today))
    ensures var t := RecordFunding(s, input).state;
            && LoanBalance(t, d) == LoanBalance(s, d)
            && Net(t.entries, UpTo(d), input.owner)
               == Net(s.entries, UpTo(d), input.owner) + if input.receivedOn.GetOr(s.today) <= d then input.amount else 0
  {
    var t := RecordFunding(s, input).state;
    var f := NewFunding(s, input).value;
    var e := t.entries[|s.entries|];
    RepaymentRow(s, input);
    TwoLinesBalance(f.owner, f.cash, f.amount);
    assert NetOn(e.lines, LoanAccount(s)) == 0 && NetOn(e.lines, f.owner) == f.amount;
    TotalGrows(s.entries, e, UpTo(d), NetTo(LoanAccount(s)));
    TotalGrows(s.entries, e, UpTo(d), NetTo(f.owner));
  }

  /**
  Nor is the guard on deleting a loan: it looks at today only. A deleted loan leaves no date
  overdrawn exactly when the balance covers it today and on every later date.
  */
  lemma WhenDeletingKeepsLoanWhole(s: State, id: Id)
    requires NeverOverdrawn(s) && Recorded(s) && FindKey(s.accounts, OwnerLoanKey).Some?
    requires DeleteFunding(s, id).Done? && IsOnLoan(s, Row(s.fundings, id)) && Row(s.fundings, id).value.kind == Loan
    ensures NeverOverdrawn(DeleteFunding(s, id).state)
       <==> forall d :: s.today <= d ==> Row(s.fundings, id).value.amount <= LoanBalance(s, d)
  {
    var e := FundingDeletionEntry(s, id, LoanAccount(s));
    FundingOnLoan(Row(s.fundings, id).value, LoanAccount(s));
    WhenEntryKeepsLoanWhole(s, DeleteFunding(s, id).state, e);
  }

  // ---- a backdated repayment, and a loan deleted ahead of its repayment ----

  function BankAndLoan(): seq<Account> {
    [Account("1000", "Bank", Asset, BankKey, false), Account("2500", "Loan from Owner", Liability, OwnerLoanKey, false)]
  }

  /** 100 lent on day 1, 60 of it repaid on day 5. */
  function LentAndRepaid(): State {
    State(5, BankAndLoan(),
          [Entry(1, FromFunding, 1, 0, [Line(1, 100, 0), Line(2, 0, 100)]),
           Entry(5, FromFunding, 2, 0, [Line(2, 60, 0), Line(1, 0, 60)])],
          [], [], 14, 0, 1, 1, [], [], [],
          [Some(Funding(1, Loan, 100, 1, 2, 1)), Some(Funding(5, Repayment, 60, 1, 2, 2))], {}, [])
  }

  lemma LoanOfExample(d: Date)
    ensures LoanBalance(LentAndRepaid(), d) == (if 1 <= d then 100 else 0) - if 5 <= d then 60 else 0
    ensures FindKey(BankAndLoan(), OwnerLoanKey) == Some(2) && FindKey(BankAndLoan(), BankKey) == Some(1)
  {
    var lent, repaid := LentAndRepaid().entries[0], LentAndRepaid().entries[1];
    assert BankAndLoan()[..1] == [BankAndLoan()[0]];
    assert LentAndRepaid().entries == [] + [lent] + [repaid];
    TotalGrows([], lent, UpTo(d), NetTo(2));
    TotalGrows([lent], repaid, UpTo(d), NetTo(2));
    TwoLinesBalance(1, 2, 100);
    TwoLinesBalance(2, 1, 60);
  }

  /** A second repayment of 60, dated day 3 when 100 was still owed, passes the guard and overdraws day 5. */
  lemma BackdatedRepaymentOverdraws()
    ensures var s, input := LentAndRepaid(), FundingInput(Some(3), Repayment, 60, 0, 0);
            && NeverOverdrawn(s)
            && RecordFunding(s, input).Done?
            && LoanBalance(RecordFunding(s, input).state, 5) == -20
  {
    var s, input := LentAndRepaid(), FundingInput(Some(3), Repayment, 60, 0, 0);
    forall d
      ensures LoanBalance(s, d) >= 0
    {
      LoanOfExample(d);
    }
    LoanOfExample(3);
    LoanOfExample(5);
    RecordingOnLoan(s, input);
  }

  /** The same books seen on day 3, when the repayment of day 5 is still to come. */
  function RepaymentToCome(): State {
    LentAndRepaid().(today := 3)
  }

  lemma LoanIsRecorded()
    ensures Recorded(RepaymentToCome())
  {
    var s := RepaymentToCome();
    TwoLinesBalance(1, 2, 100);
    TwoLinesBalance(2, 1, 60);
    assert FundingSound(s.entries, s.fundings[0].value) && FundingSound(s.entries, s.fundings[1].value);
  }

  lemma LoanReverses(s: State)
    requires s == RepaymentToCome()
    ensures Recorded(s) && DeleteFunding(s, 1).Done?
  {
    LoanIsRecorded();
    LoanOfExample(s.today);
    WhenFundingDeletionSucceeds(s, 1);
  }

  /** Deleting the loan on day 3, with 100 still owed, passes the guard and leaves day 5 overdrawn by 60. */
  lemma DeletedLoanOverdraws()
    ensures var s := RepaymentToCome();
            && NeverOverdrawn(s)
            && DeleteFunding(s, 1).Done?
            && LoanBalance(DeleteFunding(s, 1).state, 5) == -60
  {
    var s := RepaymentToCome();
    forall d
      ensures LoanBalance(s, d) == LoanBalance(LentAndRepaid(), d)
      ensures LoanBalance(s, d) >= 0
    {
      LoanOfExample(d);
    }
    LoanOfExample(5);
    LoanReverses(s);
    DeletingOnLoan(s, 1);
  }

  // ---- an expense paid out of the loan ----

  function WithCosts(): seq<Account> {
    BankAndLoan() + [Account("6000", "Costs", Expense, NoKey, false)]
  }

  /** Day 1: the owner pays a cost of 40. Day 2: the 40 are repaid. It is day 3. */
  function CostRepaid(): State {
    State(3, WithCosts(),
          [Entry(1, FromExpense, 1, 0, [Line(3, 40, 0), Line(2, 0, 40)]),
           Entry(2, FromFunding, 1, 0, [Line(2, 40, 0), Line(1, 0, 40)])],
          [], [], 14, 0, 1, 1, [], [],
          [Some(ExpenseRow(1, 3, 2, 40, 0, 0, 0, 40, false, false, 0, 0, 1))],
          [Some(Funding(2, Repayment, 40, 1, 2, 2))], {}, [])
  }

  lemma LoanOfCostRepaid(d: Date)
    ensures LoanBalance(CostRepaid(), d) == (if 1 <= d then 40 else 0) - if 2 <= d then 40 else 0
    ensures FindKey(WithCosts(), OwnerLoanKey) == Some(2)
  {
    var spent, repaid := CostRepaid().entries[0], CostRepaid().entries[1];
    assert WithCosts()[..2] == BankAndLoan() && BankAndLoan()[..1] == [BankAndLoan()[0]];
    assert CostRepaid().entries == [] + [spent] + [repaid];
    TotalGrows([], spent, UpTo(d), NetTo(2));
    TotalGrows([spent], repaid, UpTo(d), NetTo(2));
    TwoLinesBalance(3, 2, 40);
    TwoLinesBalance(2, 1, 40);
  }

  lemma CostIsRecorded()
    ensures Recorded(CostRepaid())
  {
    var s := CostRepaid();
    TwoLinesBalance(3, 2, 40);
    TwoLinesBalance(2, 1, 40);
    assert ExpenseLines(s.expenses[0].value, 0) == [Line(3, 40, 0), Line(2, 0, 40)];
    assert ExpenseSound(s.accounts, s.entries, s.expenses[0].value);
    assert FundingSound(s.entries, s.fundings[0].value);
  }

  lemma CostCanBeDeleted()
    ensures DeleteExpense(CostRepaid(), 1).Done?
  {
    CostIsRecorded();
    WhenExpenseDeletionSucceeds(CostRepaid(), 1);
  }

  lemma CostIsNeverOverdrawn()
    ensures NeverOverdrawn(CostRepaid())
  {
    forall d
      ensures LoanBalance(CostRepaid(), d) >= 0
    {
      LoanOfCostRepaid(d);
    }
  }

  /** An untaxed expense lends what it cost to the account it was paid from. */
  lemma PaidFromLends(x: ExpenseRow, vatIn: Id)
    requires x.vat == 0 && x.account != x.paidFrom
    ensures NetOn(ExpenseLines(x, vatIn), x.paidFrom) == -x.total
  {
    TwoLinesBalance(x.account, x.paidFrom, x.total);
    assert ExpenseLines(x, vatIn) == [Line(x.account, x.total, 0), Line(x.paidFrom, 0, x.total)];
  }

  lemma UncoveredOverdraws(s: State, id: Id, d: Date)
    requires NeverOverdrawn(s) && Recorded(s) && FindKey(s.accounts, OwnerLoanKey).Some? && DeleteExpense(s, id).Done?
    requires Row(s.expenses, id).Some? && s.today <= d
    requires LoanBalance(s, d) < -NetOn(ExpenseLines(Row(s.expenses, id).value, VatInAccount(s.accounts)), LoanAccount(s))
    ensures !NeverOverdrawn(DeleteExpense(s, id).state)
  {
    WhenExpenseDeletionKeepsLoanWhole(s, id);
  }

  lemma NothingIsLeft(s: State)
    requires s == CostRepaid()
    ensures FindKey(s.accounts, OwnerLoanKey) == Some(2) && LoanBalance(s, s.today) == 0
  {
    LoanOfCostRepaid(s.today);
  }

  lemma CostLent(s: State)
    requires s == CostRepaid()
    ensures Row(s.expenses, 1).Some?
    ensures NetOn(ExpenseLines(Row(s.expenses, 1).value, VatInAccount(s.accounts)), 2) == -40
  {
    PaidFromLends(s.expenses[0].value, VatInAccount(s.accounts));
  }

  /** Deleting the cost is accepted, and leaves the loan overdrawn by the 40 already repaid. */
  lemma DeletedExpenseOverdraws(s: State)
    requires s == CostRepaid()
    ensures NeverOverdrawn(s) && Recorded(s)
    ensures DeleteExpense(s, 1).Done? && !NeverOverdrawn(DeleteExpense(s, 1).state)
  {
    CostIsRecorded();
    CostCanBeDeleted();
    CostIsNeverOverdrawn();
    NothingIsLeft(s);
    CostLent(s);
    UncoveredOverdraws(s, 1, s.today);
  }
}
