/**
The journal: accounts, entries and their lines, date windows, and what an entry moves on an
account. Ids are positions: rows are numbered from 1 and no account or entry is ever removed.
*/
module Ledger {
  import opened Options
  import opened Sums
  import opened Amounts

  type Id = int
  type Date = int

  datatype AccountType = Asset | Liability | Equity | Income | Expense

  datatype SystemKey =
    | NoKey | BankKey | ArKey | ApKey | VatOutputKey | VatInputKey | SalesKey
    | RechargedKey | RetainedKey | RoundingKey | CapitalKey | OwnerLoanKey

  datatype Account = Account(code: string, name: string, kind: AccountType, key: SystemKey, archived: bool)

  datatype Line = Line(account: Id, debit: Money, credit: Money)

  datatype Source =
    | Manual | Opening | FromInvoice | FromCreditNote | FromPayment | FromExpense | FromFunding

  datatype Entry = Entry(date: Date, source: Source, sourceId: Id, reverses: Id, lines: seq<Line>)

  /** An optional bound on either side; an absent bound is the floor or the ceiling of all dates. */
  datatype Window = Window(from: Option<Date>, to: Option<Date>) {
    predicate Holds(d: Date) {
      (from.Some? ==> from.value <= d) && (to.Some? ==> d <= to.value)
    }
  }

  const AllTime := Window(None, None)

  function UpTo(asOf: Date): Window {
    Window(None, Some(asOf))
  }

  // ---- accounts ----

  predicate HasAccount(accounts: seq<Account>, id: Id) {
    1 <= id <= |accounts|
  }

  predicate IsKind(accounts: seq<Account>, id: Id, kind: AccountType) {
    HasAccount(accounts, id) && accounts[id - 1].kind == kind
  }

  /** `AccountBySystemKey`: the id of the account carrying the key. */
  function FindKey(accounts: seq<Account>, key: SystemKey): (r: Option<Id>)
    ensures r.Some? ==> HasAccount(accounts, r.value) && accounts[r.value - 1].key == key
  {
    if accounts == [] then None
    else if accounts[|accounts| - 1].key == key then Some(|accounts|)
    else FindKey(accounts[..|accounts| - 1], key)
  }

  /** Later charts of accounts: none removed, no key moved, newcomers without a key. */
  ghost predicate ChartGrows(before: seq<Account>, after: seq<Account>) {
    && |before| <= |after|
    && (forall i :: 0 <= i < |before| ==> after[i].key == before[i].key)
    && forall i :: |before| <= i < |after| ==> after[i].key == NoKey
  }

  /** The code's handle on an account never moves. */
  lemma {:induction false} KeysStayPut(before: seq<Account>, after: seq<Account>, key: SystemKey)
    requires ChartGrows(before, after) && key != NoKey
    ensures FindKey(after, key) == FindKey(before, key)
  {
    if |after| > |before| {
      KeysStayPut(before, after[..|after| - 1], key);
    } else if before != [] {
      KeysStayPut(before[..|before| - 1], after[..|after| - 1], key);
    }
  }

  lemma KeysAreDistinct(accounts: seq<Account>, k: SystemKey, l: SystemKey)
    requires k != l && FindKey(accounts, k).Some?
    ensures FindKey(accounts, k) != FindKey(accounts, l)
  {
  }

  // ---- lines ----

  function DebitTo(a: Id): Line -> int {
    (l: Line) => if l.account == a then l.debit else 0
  }

  function CreditTo(a: Id): Line -> int {
    (l: Line) => if l.account == a then l.credit else 0
  }

  function NetTo(a: Id): Line -> int {
    (l: Line) => if l.account == a then l.debit - l.credit else 0
  }

  function AnyDebit(): Line -> int {
    (l: Line) => l.debit
  }

  function AnyCredit(): Line -> int {
    (l: Line) => l.credit
  }

  /** Debits less credits on one account. */
  function NetOn(lines: seq<Line>, a: Id): Money {
    Sum(lines, NetTo(a))
  }

  /** The check on every journal row: one side set, the other zero, neither negative. */
  predicate OneSided(l: Line) {
    l.debit >= 0 && l.credit >= 0 && (l.debit == 0) != (l.credit == 0)
  }

  predicate Balanced(lines: seq<Line>) {
    Sum(lines, AnyDebit()) == Sum(lines, AnyCredit())
  }

  predicate RowsAccepted(accounts: seq<Account>, lines: seq<Line>) {
    forall i :: 0 <= i < |lines| ==> OneSided(lines[i]) && HasAccount(accounts, lines[i].account)
  }

  /** What every stored entry satisfies. */
  predicate GoodEntry(accounts: seq<Account>, e: Entry) {
    RowsAccepted(accounts, e.lines) && Balanced(e.lines)
  }

  ghost predicate GoodJournal(accounts: seq<Account>, entries: seq<Entry>) {
    forall i :: 0 <= i < |entries| ==> GoodEntry(accounts, entries[i])
  }

  function Swap(l: Line): Line {
    Line(l.account, l.credit, l.debit)
  }

  /** The mirror image an entry is reversed by. */
  function Mirror(lines: seq<Line>): (r: seq<Line>)
    ensures |r| == |lines|
    ensures forall i :: 0 <= i < |lines| ==> r[i] == Swap(lines[i])
  {
    if lines == [] then [] else Mirror(lines[..|lines| - 1]) + [Swap(lines[|lines| - 1])]
  }

  lemma {:induction false} MirrorCancels(lines: seq<Line>, a: Id)
    ensures NetOn(Mirror(lines), a) == -NetOn(lines, a)
    ensures Sum(Mirror(lines), AnyDebit()) == Sum(lines, AnyCredit())
    ensures Sum(Mirror(lines), AnyCredit()) == Sum(lines, AnyDebit())
  {
    if lines != [] {
      var last := lines[|lines| - 1];
      MirrorCancels(lines[..|lines| - 1], a);
      SumSnoc(Mirror(lines[..|lines| - 1]), Swap(last), NetTo(a));
      SumSnoc(Mirror(lines[..|lines| - 1]), Swap(last), AnyDebit());
      SumSnoc(Mirror(lines[..|lines| - 1]), Swap(last), AnyCredit());
    }
  }

  // ---- sums over the journal ----

  function InWindow(w: Window, f: Line -> int): Entry -> int {
    (e: Entry) => if w.Holds(e.date) then Sum(e.lines, f) else 0
  }

  /** The aggregate every report query is: a sum over the lines of the entries dated in a window. */
  function Total(entries: seq<Entry>, w: Window, f: Line -> int): int {
    Sum(entries, InWindow(w, f))
  }

  function Net(entries: seq<Entry>, w: Window, a: Id): Money {
    Total(entries, w, NetTo(a))
  }

  lemma TotalGrows(entries: seq<Entry>, e: Entry, w: Window, f: Line -> int)
    ensures Total(entries + [e], w, f) == Total(entries, w, f) + if w.Holds(e.date) then Sum(e.lines, f) else 0
  {
    SumSnoc(entries, e, InWindow(w, f));
  }

  lemma NetIsDebitLessCredit(entries: seq<Entry>, w: Window, a: Id)
    ensures Net(entries, w, a) == Total(entries, w, DebitTo(a)) - Total(entries, w, CreditTo(a))
  {
    forall i | 0 <= i < |entries|
      ensures InWindow(w, NetTo(a))(entries[i]) == InWindow(w, DebitTo(a))(entries[i]) + -1 * InWindow(w, CreditTo(a))(entries[i])
    {
      SumCombine(entries[i].lines, NetTo(a), DebitTo(a), CreditTo(a), -1);
    }
    SumCombine(entries, InWindow(w, NetTo(a)), InWindow(w, DebitTo(a)), InWindow(w, CreditTo(a)), -1);
  }

  // ---- exchanging the sum by entry for the sum by account ----

  function NetByAccount(lines: seq<Line>): int -> int {
    a => NetOn(lines, a)
  }

  function LedgerNet(entries: seq<Entry>, w: Window): int -> int {
    a => Net(entries, w, a)
  }

  function NetOfLine(l: Line): int -> int {
    a => if l.account == a then l.debit - l.credit else 0
  }

  /** The lines of one entry, summed account by account, come to its debits less its credits. */
  lemma {:induction false} LinesAcrossAccounts(accounts: seq<Account>, lines: seq<Line>)
    requires forall i :: 0 <= i < |lines| ==> HasAccount(accounts, lines[i].account)
    ensures SumIds(|accounts|, NetByAccount(lines)) == Sum(lines, AnyDebit()) - Sum(lines, AnyCredit())
  {
    if lines == [] {
      SumIdsNone(|accounts|, NetByAccount(lines));
    } else {
      var rest, last := lines[..|lines| - 1], lines[|lines| - 1];
      LinesAcrossAccounts(accounts, rest);
      SumIdsOnly(|accounts|, NetOfLine(last), last.account);
      SumIdsCombine(|accounts|, NetByAccount(lines), NetByAccount(rest), NetOfLine(last), 1);
    }
  }

  /**
  The trial-balance identity: whatever the window, a journal of good entries nets to nothing
  when its movements are summed account by account.
  */
  lemma {:induction false} LedgerNetsToZero(accounts: seq<Account>, entries: seq<Entry>, w: Window)
    requires GoodJournal(accounts, entries)
    ensures SumIds(|accounts|, LedgerNet(entries, w)) == 0
  {
    if entries == [] {
      SumIdsNone(|accounts|, LedgerNet(entries, w));
    } else {
      var rest, last := entries[..|entries| - 1], entries[|entries| - 1];
      LedgerNetsToZero(accounts, rest, w);
      LinesAcrossAccounts(accounts, last.lines);
      SumIdsCombine(|accounts|, LedgerNet(entries, w), LedgerNet(rest, w), NetByAccount(last.lines), if w.Holds(last.date) then 1 else 0);
    }
  }

  /** An account no line names holds nothing. */
  lemma UntouchedNetsToZero(entries: seq<Entry>, w: Window, a: Id)
    requires forall i, j :: 0 <= i < |entries| && 0 <= j < |entries[i].lines| ==> entries[i].lines[j].account != a
    ensures Net(entries, w, a) == 0
  {
    forall i | 0 <= i < |entries|
      ensures InWindow(w, NetTo(a))(entries[i]) == 0
    {
      SumNone(entries[i].lines, NetTo(a));
    }
    SumNone(entries, InWindow(w, NetTo(a)));
  }
}
