/**
Sales documents: how a draft's lines are priced and taxed, and how an issued document becomes
journal lines.
*/
module Documents {
  import opened Options
  import opened Sums
  import opened Text
  import opened Amounts
  import opened Ledger

  datatype DocKind = Invoice | CreditNote

  datatype Status = Draft | Issued | PartPaid | Paid | Void

  datatype VatKind = Standard | Reduced | Zero | Exempt | ReverseCharge

  datatype VatRate = VatRate(bp: int, kind: VatKind, archived: bool)

  datatype DocLine = DocLine(
    description: string, quantity: int, unitPrice: Money, net: Money,
    rate: Id, rateBP: int, vat: Money, income: Id, timeEntry: Id)

  datatype Doc = Doc(
    kind: DocKind, number: string, client: Id, engagement: Id, status: Status,
    issueDate: Date, dueDate: Date, terms: int,
    subtotal: Money, vat: Money, total: Money, paid: Money,
    reverseCharge: bool, customerVat: string, corrects: Id, entry: Id, lines: seq<DocLine>)
  {
    function Outstanding(): Money {
      total - paid
    }

    predicate Live() {
      status != Draft && status != Void
    }
  }

  /** What a caller hands in. `paid` and `entry` are stored as given; every total is recomputed. */
  datatype DocInput = DocInput(
    kind: DocKind, client: Id, engagement: Id, issueDate: Option<Date>, dueDate: Option<Date>, terms: int,
    reverseCharge: bool, customerVat: string, corrects: Id, paid: Money, entry: Id, lines: seq<DocLine>)

  function PaymentStatus(d: Doc): Status {
    if d.status == Void || d.status == Draft then d.status
    else if d.paid == 0 then Issued
    else if d.paid < d.total then PartPaid
    else Paid
  }

  // ---- pricing a draft ----

  /** Everything line pricing reads. `reverse` is the reverse-charge rate when the draft is one. */
  datatype Pricing = Pricing(
    accounts: seq<Account>, rates: seq<VatRate>, defaultRate: Id, defaultIncome: Id, reverse: Option<Id>)

  predicate HasRate(rates: seq<VatRate>, id: Id) {
    1 <= id <= |rates|
  }

  function PriceLine(p: Pricing, l: DocLine): Option<DocLine> {
    var quantity := if l.quantity == 0 then 1000 else l.quantity;
    var income := if l.income == 0 then p.defaultIncome else l.income;
    var net := Extend(quantity, l.unitPrice);
    var rate := if p.reverse.Some? then p.reverse.value else if l.rate == 0 then p.defaultRate else l.rate;
    if TrimSpace(l.description) == "" || !IsKind(p.accounts, income, Income) then None
    else if p.reverse.None? && rate != 0 && !HasRate(p.rates, rate) then None
    else
      var bp := if p.reverse.Some? then 0 else if rate != 0 then p.rates[rate - 1].bp else l.rateBP;
      var vat := if p.reverse.Some? then 0 else VAT(net, bp);
      Some(DocLine(TrimSpace(l.description), quantity, l.unitPrice, net, rate, bp, vat, income, l.timeEntry))
  }

  function PriceLines(p: Pricing, lines: seq<DocLine>): (r: Option<seq<DocLine>>)
    ensures r.Some? ==> |r.value| == |lines|
    ensures r.Some? ==> forall i :: 0 <= i < |lines| ==> PriceLine(p, lines[i]) == Some(r.value[i])
  {
    if lines == [] then Some([])
    else
      match PriceLines(p, lines[..|lines| - 1])
      case None => None
      case Some(rest) =>
        match PriceLine(p, lines[|lines| - 1])
        case None => None
        case Some(last) => Some(rest + [last])
  }

  lemma {:induction false} PriceLinesBuilds(p: Pricing, lines: seq<DocLine>, priced: seq<DocLine>)
    requires |priced| == |lines|
    requires forall i :: 0 <= i < |lines| ==> PriceLine(p, lines[i]) == Some(priced[i])
    ensures PriceLines(p, lines) == Some(priced)
  {
    if lines != [] {
      PriceLinesBuilds(p, lines[..|lines| - 1], priced[..|lines| - 1]);
      assert priced == priced[..|lines| - 1] + [priced[|lines| - 1]];
    }
  }

  lemma {:induction false} PriceLinesFails(p: Pricing, lines: seq<DocLine>, i: nat)
    requires i < |lines| && PriceLine(p, lines[i]).None?
    ensures PriceLines(p, lines).None?
  {
    if i < |lines| - 1 {
      PriceLinesFails(p, lines[..|lines| - 1], i);
    }
  }

  lemma {:induction false} TrimIsSettled(s: string)
    ensures TrimSpace(TrimSpace(s)) == TrimSpace(s)
    decreases |s|
  {
    if s != [] && IsSpace(s[0]) {
      TrimIsSettled(s[1..]);
    } else if s != [] && IsSpace(s[|s| - 1]) {
      TrimIsSettled(s[..|s| - 1]);
    }
  }

  /** A full credit copies the lines without their link to a time entry. */
  function Unlinked(lines: seq<DocLine>): (r: seq<DocLine>)
    ensures |r| == |lines|
    ensures forall i :: 0 <= i < |lines| ==> r[i] == lines[i].(timeEntry := 0)
  {
    seq(|lines|, i requires 0 <= i < |lines| => lines[i].(timeEntry := 0))
  }

  lemma PricedLineIsSettled(p: Pricing, l: DocLine, priced: DocLine)
    requires PriceLine(p, l) == Some(priced)
    ensures PriceLine(p, priced) == Some(priced)
    ensures PriceLine(p, priced.(timeEntry := 0)) == Some(priced.(timeEntry := 0))
  {
    TrimIsSettled(l.description);
  }

  /** Pricing lines that were priced before, with nothing it reads changed, moves no amount. */
  lemma PricingIsSettled(p: Pricing, lines: seq<DocLine>, priced: seq<DocLine>)
    requires PriceLines(p, lines) == Some(priced)
    ensures PriceLines(p, priced) == Some(priced)
    ensures PriceLines(p, Unlinked(priced)) == Some(Unlinked(priced))
  {
    forall i | 0 <= i < |lines|
      ensures PriceLine(p, priced[i]) == Some(priced[i])
      ensures PriceLine(p, Unlinked(priced)[i]) == Some(Unlinked(priced)[i])
    {
      PricedLineIsSettled(p, lines[i], priced[i]);
    }
    PriceLinesBuilds(p, priced, priced);
    PriceLinesBuilds(p, Unlinked(priced), Unlinked(priced));
  }

  function NetAmount(): DocLine -> int {
    (l: DocLine) => l.net
  }

  function VatAmount(): DocLine -> int {
    (l: DocLine) => l.vat
  }

  predicate TotalsAgree(d: Doc) {
    d.subtotal == Sum(d.lines, NetAmount()) && d.vat == Sum(d.lines, VatAmount()) && d.total == d.subtotal + d.vat
  }

  // ---- from a document to journal lines ----

  /** A credit note is the same shape with the sides swapped. */
  function Signed(kind: DocKind, amount: Money): Money {
    if kind == CreditNote then -amount else amount
  }

  /** Places a signed amount on the side it belongs on. */
  function Posting(account: Id, amount: Money, debitNormal: bool): Line {
    var signed := if debitNormal then amount else -amount;
    if signed >= 0 then Line(account, signed, 0) else Line(account, 0, -signed)
  }

  /** The income accounts in the order the lines first name them. */
  function IncomeOrder(lines: seq<DocLine>): seq<Id> {
    if lines == [] then []
    else
      var rest := IncomeOrder(lines[..|lines| - 1]);
      if lines[|lines| - 1].income in rest then rest else rest + [lines[|lines| - 1].income]
  }

  function IncomeOf(a: Id): DocLine -> int {
    (l: DocLine) => if l.income == a then l.net else 0
  }

  function IncomeTotal(lines: seq<DocLine>): Id -> int {
    a => Sum(lines, IncomeOf(a))
  }

  function IncomePostings(order: seq<Id>, lines: seq<DocLine>, kind: DocKind): seq<Line> {
    if order == [] then []
    else
      var a := order[|order| - 1];
      IncomePostings(order[..|order| - 1], lines, kind) + [Posting(a, Signed(kind, Sum(lines, IncomeOf(a))), false)]
  }

  function Postings(d: Doc, ar: Id, vatAccount: Id): seq<Line> {
    [Posting(ar, Signed(d.kind, d.total), true)]
    + IncomePostings(IncomeOrder(d.lines), d.lines, d.kind)
    + if d.vat != 0 then [Posting(vatAccount, Signed(d.kind, d.vat), false)] else []
  }

  /** Issuing drops the postings that carry nothing. */
  function Nonzero(lines: seq<Line>): seq<Line> {
    if lines == [] then []
    else
      var last := lines[|lines| - 1];
      Nonzero(lines[..|lines| - 1]) + if last.debit == 0 && last.credit == 0 then [] else [last]
  }

  function DocEntryLines(d: Doc, ar: Id, vatAccount: Id): seq<Line> {
    Nonzero(Postings(d, ar, vatAccount))
  }

  /** What a document moves on an account: receivable one way, income and tax the other. */
  function DocNet(d: Doc, ar: Id, vatAccount: Id, a: Id): Money {
    Signed(d.kind, (if a == ar then d.total else 0) - Sum(d.lines, IncomeOf(a)) - if a == vatAccount then d.vat else 0)
  }

  function AnyNet(): Line -> int {
    (l: Line) => l.debit - l.credit
  }

  /** Each account appears once, and an account no line names has no income. */
  lemma {:induction false} IncomeOrderIsExact(lines: seq<DocLine>, a: Id)
    ensures forall i, j :: 0 <= i < j < |IncomeOrder(lines)| ==> IncomeOrder(lines)[i] != IncomeOrder(lines)[j]
    ensures a in IncomeOrder(lines) <==> exists i :: 0 <= i < |lines| && lines[i].income == a
    ensures a !in IncomeOrder(lines) ==> Sum(lines, IncomeOf(a)) == 0
  {
    if lines != [] {
      IncomeOrderIsExact(lines[..|lines| - 1], a);
    }
  }

  predicate FirstNamed(lines: seq<DocLine>, k: int, a: Id) {
    0 <= k < |lines| && lines[k].income == a && forall m :: 0 <= m < k ==> lines[m].income != a
  }

  lemma {:induction false} FirstNaming(lines: seq<DocLine>, a: Id) returns (k: int)
    requires a in IncomeOrder(lines)
    ensures FirstNamed(lines, k, a)
  {
    var rest := lines[..|lines| - 1];
    IncomeOrderIsExact(rest, a);
    if a in IncomeOrder(rest) {
      k := FirstNaming(rest, a);
    } else {
      k := |rest|;
    }
  }

  /** An account posted to before another was named before it. */
  lemma {:induction false} IncomeAsFirstNamed(lines: seq<DocLine>, i: nat, j: nat) returns (k: int, l: int)
    requires i < j < |IncomeOrder(lines)|
    ensures k < l && FirstNamed(lines, k, IncomeOrder(lines)[i]) && FirstNamed(lines, l, IncomeOrder(lines)[j])
  {
    var rest := lines[..|lines| - 1];
    if j < |IncomeOrder(rest)| {
      k, l := IncomeAsFirstNamed(rest, i, j);
    } else {
      IncomeOrderIsExact(rest, IncomeOrder(lines)[j]);
      k := FirstNaming(rest, IncomeOrder(rest)[i]);
      l := |rest|;
    }
  }

  function OnlyAt(a: Id, v: int): Id -> int {
    b => if b == a then v else 0
  }

  lemma {:induction false} SumOnlyAt(order: seq<Id>, a: Id, v: int)
    requires forall i, j :: 0 <= i < j < |order| ==> order[i] != order[j]
    ensures Sum(order, OnlyAt(a, v)) == if a in order then v else 0
  {
    if order != [] {
      SumOnlyAt(order[..|order| - 1], a, v);
      assert order == order[..|order| - 1] + [order[|order| - 1]];
    }
  }

  /** Grouping by account loses nothing: the groups come to the lines. */
  lemma {:induction false} GroupingKeepsTheTotal(lines: seq<DocLine>)
    ensures Sum(IncomeOrder(lines), IncomeTotal(lines)) == Sum(lines, NetAmount())
  {
    if lines != [] {
      var rest, last := lines[..|lines| - 1], lines[|lines| - 1];
      var order := IncomeOrder(rest);
      GroupingKeepsTheTotal(rest);
      IncomeOrderIsExact(rest, last.income);
      SumCombine(order, IncomeTotal(lines), IncomeTotal(rest), OnlyAt(last.income, last.net), 1);
      SumOnlyAt(order, last.income, last.net);
      if last.income !in order {
        SumSnoc(order, last.income, IncomeTotal(lines));
      }
    }
  }

  lemma {:induction false} IncomePostingsMove(order: seq<Id>, lines: seq<DocLine>, kind: DocKind, a: Id)
    requires forall i, j :: 0 <= i < j < |order| ==> order[i] != order[j]
    ensures NetOn(IncomePostings(order, lines, kind), a) == if a in order then -Signed(kind, Sum(lines, IncomeOf(a))) else 0
    ensures Sum(IncomePostings(order, lines, kind), AnyNet()) == -Signed(kind, Sum(order, IncomeTotal(lines)))
  {
    if order != [] {
      var rest, last := order[..|order| - 1], order[|order| - 1];
      IncomePostingsMove(rest, lines, kind, a);
      assert order == rest + [last];
      var p := Posting(last, Signed(kind, Sum(lines, IncomeOf(last))), false);
      SumSnoc(IncomePostings(rest, lines, kind), p, NetTo(a));
      SumSnoc(IncomePostings(rest, lines, kind), p, AnyNet());
    }
  }

  lemma {:induction false} NonzeroMovesTheSame(lines: seq<Line>, a: Id)
    ensures NetOn(Nonzero(lines), a) == NetOn(lines, a)
    ensures Sum(Nonzero(lines), AnyNet()) == Sum(lines, AnyNet())
  {
    if lines != [] {
      var rest, last := lines[..|lines| - 1], lines[|lines| - 1];
      NonzeroMovesTheSame(rest, a);
      assert Nonzero(rest) + [] == Nonzero(rest);
      SumSnoc(Nonzero(rest), last, NetTo(a));
      SumSnoc(Nonzero(rest), last, AnyNet());
    }
  }

  lemma {:induction false} BalancedIffNetsToZero(lines: seq<Line>)
    ensures Sum(lines, AnyNet()) == Sum(lines, AnyDebit()) - Sum(lines, AnyCredit())
  {
    if lines != [] {
      BalancedIffNetsToZero(lines[..|lines| - 1]);
    }
  }

  lemma PostingsSplit(d: Doc, ar: Id, vatAccount: Id, f: Line -> int)
    ensures Sum(Postings(d, ar, vatAccount), f)
            == f(Posting(ar, Signed(d.kind, d.total), true))
               + Sum(IncomePostings(IncomeOrder(d.lines), d.lines, d.kind), f)
               + if d.vat != 0 then f(Posting(vatAccount, Signed(d.kind, d.vat), false)) else 0
  {
    var income := IncomePostings(IncomeOrder(d.lines), d.lines, d.kind);
    var first := [Posting(ar, Signed(d.kind, d.total), true)];
    SumConcat(first, income, f);
    if d.vat != 0 {
      SumSnoc(first + income, Posting(vatAccount, Signed(d.kind, d.vat), false), f);
    } else {
      assert Postings(d, ar, vatAccount) == first + income;
    }
  }

  lemma IncomeMoves(lines: seq<DocLine>, kind: DocKind, a: Id)
    ensures NetOn(IncomePostings(IncomeOrder(lines), lines, kind), a) == -Signed(kind, Sum(lines, IncomeOf(a)))
  {
    IncomeOrderIsExact(lines, a);
    IncomePostingsMove(IncomeOrder(lines), lines, kind, a);
  }

  lemma PostingMoves(account: Id, amount: Money, debitNormal: bool, a: Id)
    ensures NetTo(a)(Posting(account, amount, debitNormal)) == if a != account then 0 else if debitNormal then amount else -amount
  {
  }

  lemma PostingsMove(d: Doc, ar: Id, vatAccount: Id, a: Id)
    ensures NetOn(Postings(d, ar, vatAccount), a) == DocNet(d, ar, vatAccount, a)
  {
    PostingsSplit(d, ar, vatAccount, NetTo(a));
    IncomeMoves(d.lines, d.kind, a);
    PostingMoves(ar, Signed(d.kind, d.total), true, a);
    PostingMoves(vatAccount, Signed(d.kind, d.vat), false, a);
  }

  lemma PostingsNetToZero(d: Doc, ar: Id, vatAccount: Id)
    requires TotalsAgree(d)
    ensures Sum(Postings(d, ar, vatAccount), AnyNet()) == 0
  {
    IncomeOrderIsExact(d.lines, 0);
    IncomePostingsMove(IncomeOrder(d.lines), d.lines, d.kind, 0);
    GroupingKeepsTheTotal(d.lines);
    PostingsSplit(d, ar, vatAccount, AnyNet());
  }

  /**
  The check at the end of `invoicePostings` can never fire: whatever its lines, a document whose
  totals are the sums of its lines posts a balanced entry, and moves each account by exactly
  its receivable, income and tax.
  */
  lemma PostingsBalance(d: Doc, ar: Id, vatAccount: Id, a: Id)
    requires TotalsAgree(d)
    ensures Balanced(Postings(d, ar, vatAccount))
    ensures Balanced(DocEntryLines(d, ar, vatAccount))
    ensures NetOn(DocEntryLines(d, ar, vatAccount), a) == DocNet(d, ar, vatAccount, a)
  {
    var postings := Postings(d, ar, vatAccount);
    PostingsMove(d, ar, vatAccount, a);
    PostingsNetToZero(d, ar, vatAccount);
    NonzeroMovesTheSame(postings, a);
    BalancedIffNetsToZero(postings);
    BalancedIffNetsToZero(Nonzero(postings));
  }

  predicate Sided(l: Line) {
    l.debit >= 0 && l.credit >= 0 && (l.debit == 0 || l.credit == 0)
  }

  lemma {:induction false} IncomePostingsAreSided(order: seq<Id>, lines: seq<DocLine>, kind: DocKind)
    ensures |IncomePostings(order, lines, kind)| == |order|
    ensures forall i :: 0 <= i < |order| ==> Sided(IncomePostings(order, lines, kind)[i]) && IncomePostings(order, lines, kind)[i].account == order[i]
  {
    if order != [] {
      IncomePostingsAreSided(order[..|order| - 1], lines, kind);
    }
  }

  /** Receivable first, then each income account in the order the lines name them, then the tax, if any. */
  lemma PostingsInOrder(d: Doc, ar: Id, vatAccount: Id)
    ensures var postings, order := Postings(d, ar, vatAccount), IncomeOrder(d.lines);
            && |postings| == 1 + |order| + (if d.vat != 0 then 1 else 0)
            && postings[0].account == ar
            && (forall i :: 0 <= i < |order| ==> postings[1 + i].account == order[i])
            && (d.vat != 0 ==> postings[|order| + 1].account == vatAccount)
  {
    IncomePostingsAreSided(IncomeOrder(d.lines), d.lines, d.kind);
  }

  lemma {:induction false} NonzeroIsOneSided(lines: seq<Line>)
    requires forall i :: 0 <= i < |lines| ==> Sided(lines[i])
    ensures forall i :: 0 <= i < |Nonzero(lines)| ==> OneSided(Nonzero(lines)[i]) && Nonzero(lines)[i] in lines
  {
    if lines != [] {
      NonzeroIsOneSided(lines[..|lines| - 1]);
    }
  }

  /** The journal rows of a document pass the database's checks, so issuing never fails on one. */
  lemma DocRowsAccepted(accounts: seq<Account>, d: Doc, ar: Id, vatAccount: Id)
    requires HasAccount(accounts, ar) && (d.vat != 0 ==> HasAccount(accounts, vatAccount))
    requires forall i :: 0 <= i < |d.lines| ==> HasAccount(accounts, d.lines[i].income)
    ensures RowsAccepted(accounts, DocEntryLines(d, ar, vatAccount))
  {
    var order := IncomeOrder(d.lines);
    var income := IncomePostings(order, d.lines, d.kind);
    IncomePostingsAreSided(order, d.lines, d.kind);
    forall i | 0 <= i < |order|
      ensures HasAccount(accounts, order[i])
    {
      IncomeOrderIsExact(d.lines, order[i]);
    }
    var postings := Postings(d, ar, vatAccount);
    assert forall i :: 0 <= i < |postings| ==> Sided(postings[i]) && HasAccount(accounts, postings[i].account);
    NonzeroIsOneSided(postings);
  }

  lemma SameLinesSameSums(lines: seq<DocLine>, others: seq<DocLine>, f: DocLine -> int)
    requires |lines| == |others|
    requires forall i :: 0 <= i < |lines| ==> f(lines[i]) == f(others[i])
    ensures Sum(lines, f) == Sum(others, f)
    decreases |lines|
  {
    if lines != [] {
      SameLinesSameSums(lines[..|lines| - 1], others[..|lines| - 1], f);
    }
  }

  /**
  A credit note for the same lines posts the exact negation of the invoice on every account,
  and corrects it to the unit.
  */
  lemma CreditNegatesInvoice(d: Doc, note: Doc, ar: Id, vatAccount: Id, a: Id)
    requires TotalsAgree(d) && TotalsAgree(note)
    requires d.kind == Invoice && note.kind == CreditNote && note.lines == Unlinked(d.lines)
    ensures note.total == d.total && note.vat == d.vat
    ensures NetOn(DocEntryLines(note, ar, vatAccount), a) == -NetOn(DocEntryLines(d, ar, vatAccount), a)
  {
    SameLinesSameSums(d.lines, note.lines, NetAmount());
    SameLinesSameSums(d.lines, note.lines, VatAmount());
    SameLinesSameSums(d.lines, note.lines, IncomeOf(a));
    PostingsBalance(d, ar, vatAccount, a);
    PostingsBalance(note, ar, vatAccount, a);
  }
}
