/**
Closing a period: exactly which dates are closed once a period is saved, and what stays out of
them from then on.
*/
module Closing {
  import opened Options
  import opened Sums
  import opened Amounts
  import opened Ledger
  import opened Books
  import opened Journal
  import opened Statements
  import opened Housekeeping

  /** A locked period other than this one holds the date. */
  predicate LockedByAnother(periods: seq<Period>, id: Id, d: Date) {
    exists i :: 0 <= i < |periods| && i + 1 != id && periods[i].locked && periods[i].startsOn <= d <= periods[i].endsOn
  }

  /** The period is a new one, or takes the place of one that is there. */
  predicate IsStored(periods: seq<Period>, id: Id) {
    0 <= id <= |periods|
  }

  lemma AppendedPeriod(periods: seq<Period>, p: Period, d: Date)
    ensures Locked(periods + [p], d) <==> (p.locked && p.startsOn <= d <= p.endsOn) || LockedByAnother(periods, 0, d)
  {
    var after := periods + [p];
    assert after[|periods|] == p;
    if i :| 0 <= i < |periods| && i + 1 != 0 && periods[i].locked && periods[i].startsOn <= d <= periods[i].endsOn {
      assert after[i] == periods[i];
    }
  }

  lemma ReplacedPeriod(periods: seq<Period>, id: Id, p: Period, d: Date)
    requires 1 <= id <= |periods|
    ensures Locked(periods[id - 1 := p], d) <==> (p.locked && p.startsOn <= d <= p.endsOn) || LockedByAnother(periods, id, d)
  {
    var after := periods[id - 1 := p];
    assert after[id - 1] == p;
    if i :| 0 <= i < |periods| && i + 1 != id && periods[i].locked && periods[i].startsOn <= d <= periods[i].endsOn {
      assert after[i] == periods[i];
    }
  }

  /**
  Saving a period is accepted unless it ends before it starts. It touches nothing but the table
  of periods, and afterwards a date is closed if and only if the period as saved is locked and
  holds it, or a locked period other than the one it took the place of does. Saving under an id
  that is not there leaves every date as it was.
  */
  lemma WhatSavingAPeriodCloses(s: State, id: Id, p: Period, d: Date)
    ensures SavePeriod(s, id, p).Done? <==> p.startsOn <= p.endsOn
    ensures SavePeriod(s, id, p).Done? ==>
      var t := SavePeriod(s, id, p).state;
      && t == s.(periods := t.periods)
      && (Locked(t.periods, d) <==>
            (IsStored(s.periods, id) && p.locked && p.startsOn <= d <= p.endsOn) || LockedByAnother(s.periods, id, d))
  {
    if SavePeriod(s, id, p).Done? {
      if id == 0 {
        AppendedPeriod(s.periods, p, d);
      } else if 1 <= id <= |s.periods| {
        ReplacedPeriod(s.periods, id, p, d);
      } else {
        AnotherIsAny(s.periods, id, d);
      }
    }
  }

  lemma WhichDatesAreClosed(s: State, id: Id, p: Period)
    ensures SavePeriod(s, id, p).Done? ==> forall d :: Locked(SavePeriod(s, id, p).state.periods, d) <==>
      (IsStored(s.periods, id) && p.locked && p.startsOn <= d <= p.endsOn) || LockedByAnother(s.periods, id, d)
  {
    if SavePeriod(s, id, p).Done? {
      forall d
        ensures Locked(SavePeriod(s, id, p).state.periods, d) <==>
          (IsStored(s.periods, id) && p.locked && p.startsOn <= d <= p.endsOn) || LockedByAnother(s.periods, id, d)
      {
        WhatSavingAPeriodCloses(s, id, p, d);
      }
    }
  }

  lemma AnotherIsAny(periods: seq<Period>, id: Id, d: Date)
    requires !(1 <= id <= |periods|)
    ensures LockedByAnother(periods, id, d) <==> Locked(periods, d)
  {
  }

  /** A new period closes its own dates and reopens none; an id that is not there changes nothing. */
  lemma NewPeriodOnlyCloses(s: State, id: Id, p: Period, d: Date)
    requires SavePeriod(s, id, p).Done? && !(1 <= id <= |s.periods|)
    ensures Locked(SavePeriod(s, id, p).state.periods, d) <==> Locked(s.periods, d) || (id == 0 && p.locked && p.startsOn <= d <= p.endsOn)
  {
    WhatSavingAPeriodCloses(s, id, p, d);
    AnotherIsAny(s.periods, id, d);
  }

  // ---- what stays out ----

  /** No step saves a period; an attempt that is turned away counts for nothing. */
  predicate SavesNoPeriod(steps: seq<Step>) {
    forall i :: 0 <= i < |steps| && steps[i].DoSavePeriod? ==> steps[i].period.endsOn < steps[i].period.startsOn
  }

  lemma {:induction false} PeriodsOutlast(s: State, steps: seq<Step>)
    requires SavesNoPeriod(steps)
    ensures Run(s, steps).periods == s.periods
  {
    if steps != [] {
      var last := steps[|steps| - 1];
      PeriodsOutlast(s, steps[..|steps| - 1]);
      if !last.DoSavePeriod? {
        PeriodsStand(Run(s, steps[..|steps| - 1]), last);
      }
    }
  }

  /** Every entry of the one journal that the other lacks is dated outside the closed dates. */
  ghost predicate AddedOutside(before: seq<Entry>, after: seq<Entry>, periods: seq<Period>) {
    before <= after && forall i :: |before| <= i < |after| ==> !Locked(periods, after[i].date)
  }

  lemma {:induction false} NothingArrives(s: State, steps: seq<Step>)
    requires SavesNoPeriod(steps)
    ensures AddedOutside(s.entries, Run(s, steps).entries, s.periods)
  {
    if steps != [] {
      var rest := steps[..|steps| - 1];
      NothingArrives(s, rest);
      PeriodsOutlast(s, rest);
      StepGrowsJournal(Run(s, rest), steps[|steps| - 1]);
    }
  }

  /**
  A closed period stays closed. Once a locked period is saved, and until another period is, no
  step of any run, by any caller, appends an entry dated inside it, and nothing already in the
  journal is changed.
  */
  lemma ClosedPeriodStaysClosed(s: State, id: Id, p: Period, t: State, steps: seq<Step>)
    requires SavePeriod(s, id, p).Done? && SavePeriod(s, id, p).state == t
    requires p.locked && IsStored(s.periods, id) && SavesNoPeriod(steps)
    ensures var later := Run(t, steps).entries;
            && t.entries == s.entries <= later
            && forall i :: |s.entries| <= i < |later| ==> !(p.startsOn <= later[i].date <= p.endsOn)
  {
    var later := Run(t, steps).entries;
    WhatSavingAPeriodCloses(s, id, p, p.startsOn);
    NothingArrives(t, steps);
    forall i | |s.entries| <= i < |later|
      ensures !(p.startsOn <= later[i].date <= p.endsOn)
    {
      WhatSavingAPeriodCloses(s, id, p, later[i].date);
    }
  }

  lemma {:induction false} StandingPeriodsLock(s: State, steps: seq<Step>, w: Window)
    requires WholeWindowLocked(s, w) && SavesNoPeriod(steps)
    ensures StaysLocked(s, steps, w)
  {
    if steps != [] {
      StandingPeriodsLock(s, steps[..|steps| - 1], w);
      PeriodsOutlast(s, steps[..|steps| - 1]);
    }
  }

  /** So every figure of every statement over dates of the period stays as it was when the period was closed. */
  lemma ClosingFixesTheFigures(s: State, id: Id, p: Period, t: State, steps: seq<Step>, w: Window, column: Column)
    requires GoodJournal(s.accounts, s.entries) && IgnoresIdle(column)
    requires SavePeriod(s, id, p).Done? && SavePeriod(s, id, p).state == t
    requires p.locked && IsStored(s.periods, id) && SavesNoPeriod(steps)
    requires forall d :: w.Holds(d) ==> p.startsOn <= d <= p.endsOn
    ensures var u := Run(t, steps);
            ColumnTotal(u.accounts, u.entries, w, column) == ColumnTotal(s.accounts, s.entries, w, column)
  {
    WhatSavingAPeriodCloses(s, id, p, p.startsOn);
    forall d | w.Holds(d)
      ensures Locked(t.periods, d)
    {
      WhatSavingAPeriodCloses(s, id, p, d);
    }
    StandingPeriodsLock(t, steps, w);
    ClosedBooksStayClosed(t, steps, w, column);
  }
}
