/**
Amounts in minor units, quantities in thousandths and rates in basis points: the rounding
arithmetic every document total comes from, and the printed form of an amount.
*/
module Amounts {
  import opened Options
  import opened Sums
  import opened Text

  type Money = int

  // ---- division that truncates toward zero ----

  function TruncDiv(a: int, b: int): int
    requires b > 0
  {
    if a >= 0 then a / b else -((-a) / b)
  }

  function TruncMod(a: int, b: int): int
    requires b > 0
  {
    a - b * TruncDiv(a, b)
  }

  // ---- rounding ----

  /** The shared shape of `Extend` (half is 500) and `VAT` (half is 5000). */
  function RoundedDiv(n: int, half: int): int
    requires half > 0
  {
    if n < 0 then TruncDiv(n - half, 2 * half) else TruncDiv(n + half, 2 * half)
  }

  function Extend(quantity: int, unit: Money): Money {
    RoundedDiv(quantity * unit, 500)
  }

  function VAT(net: Money, rateBP: int): Money {
    RoundedDiv(net * rateBP, 5000)
  }

  /** q is n/(2*half) rounded to nearest, an exact half going away from zero. */
  predicate IsNearest(n: int, half: int, q: int) {
    && -half <= 2 * half * q - n <= half
    && (2 * half * q - n == half ==> n > 0)
    && (2 * half * q - n == -half ==> n < 0)
  }

  /** The rounding is the one the comments promise, and no other integer satisfies that promise. */
  lemma RoundsToNearest(n: int, half: int, q: int)
    requires half == 500 || half == 5000
    ensures IsNearest(n, half, q) <==> q == RoundedDiv(n, half)
  {
    if half == 500 {
      assert IsNearest(n, 500, q) <==> q == RoundedDiv(n, 500);
    } else {
      assert IsNearest(n, 5000, q) <==> q == RoundedDiv(n, 5000);
    }
  }

  lemma RoundingIsOdd(n: int, half: int)
    requires half == 500 || half == 5000
    ensures RoundedDiv(-n, half) == -RoundedDiv(n, half)
  {
    if half == 500 {
      assert RoundedDiv(-n, 500) == -RoundedDiv(n, 500);
    } else {
      assert RoundedDiv(-n, 5000) == -RoundedDiv(n, 5000);
    }
  }

  lemma RoundingIsMonotone(m: int, n: int, half: int)
    requires half == 500 || half == 5000
    requires m <= n
    ensures RoundedDiv(m, half) <= RoundedDiv(n, half)
  {
    if half == 500 {
      assert RoundedDiv(m, 500) <= RoundedDiv(n, 500);
    } else {
      assert RoundedDiv(m, 5000) <= RoundedDiv(n, 5000);
    }
  }

  /** A credited amount is taxed and extended as the exact mirror of the billed one. */
  lemma AmountsMirror(net: Money, rateBP: int, quantity: int, unit: Money)
    ensures VAT(-net, rateBP) == -VAT(net, rateBP)
    ensures Extend(quantity, -unit) == -Extend(quantity, unit)
    ensures Extend(-quantity, unit) == -Extend(quantity, unit)
  {
    assert (-net) * rateBP == -(net * rateBP);
    assert quantity * -unit == -(quantity * unit) == (-quantity) * unit;
    RoundingIsOdd(net * rateBP, 5000);
    RoundingIsOdd(quantity * unit, 500);
  }

  lemma AmountsMonotone(a: Money, b: Money, rateBP: int, quantity: int)
    requires a <= b && rateBP >= 0 && quantity >= 0
    ensures VAT(a, rateBP) <= VAT(b, rateBP)
    ensures Extend(quantity, a) <= Extend(quantity, b)
  {
    assert a * rateBP <= b * rateBP && quantity * a <= quantity * b;
    RoundingIsMonotone(a * rateBP, b * rateBP, 5000);
    RoundingIsMonotone(quantity * a, quantity * b, 500);
  }

  function Itself(): Money -> int {
    net => net
  }

  function TaxAt(rateBP: int): Money -> int {
    net => VAT(net, rateBP)
  }

  /**
  Tax rounded line by line against tax on the total: over k lines at one rate they differ by
  at most (k+1)/2 minor units.
  */
  lemma PerLineTaxIsClose(nets: seq<Money>, rateBP: int)
    ensures var gap := Sum(nets, TaxAt(rateBP)) - VAT(Sum(nets, Itself()), rateBP);
            -(|nets| + 1) <= 2 * gap <= |nets| + 1
  {
    PerLineTaxError(nets, rateBP);
    var n := Sum(nets, Itself()) * rateBP;
    RoundsToNearest(n, 5000, RoundedDiv(n, 5000));
  }

  lemma {:induction false} PerLineTaxError(nets: seq<Money>, rateBP: int)
    ensures var error := 10000 * Sum(nets, TaxAt(rateBP)) - Sum(nets, Itself()) * rateBP;
            -5000 * |nets| <= error <= 5000 * |nets|
  {
    if nets != [] {
      var last, rest := nets[|nets| - 1], nets[..|nets| - 1];
      PerLineTaxError(rest, rateBP);
      RoundsToNearest(last * rateBP, 5000, VAT(last, rateBP));
      Distribute(Sum(rest, Itself()), last, rateBP);
    }
  }

  lemma Distribute(a: int, b: int, k: int)
    ensures (a + b) * k == a * k + b * k
  {
  }

  /** The gap is real: three lines of 100.07 at 21% print one minor unit less than the total's tax. */
  lemma PerLineTaxCanDiffer()
    ensures Sum([10007, 10007, 10007], TaxAt(2100)) - VAT(Sum([10007, 10007, 10007], Itself()), 2100) == -1
  {
    var empty: seq<Money> := [];
    assert [10007, 10007, 10007] == empty + [10007] + [10007] + [10007];
    forall f: Money -> int
      ensures Sum([10007, 10007, 10007], f) == 3 * f(10007)
    {
      SumSnoc(empty, 10007, f);
      SumSnoc(empty + [10007], 10007, f);
      SumSnoc(empty + [10007] + [10007], 10007, f);
    }
    assert Sum([10007, 10007, 10007], TaxAt(2100)) == 3 * VAT(10007, 2100) == 6303;
  }

  // ---- printing and parsing, at the width of an int64 ----

  predicate IsInt64(n: int) {
    MIN_INT64 <= n <= MAX_INT64
  }

  /** `-m` where the amount is negative, in an int64: the smallest int64 stays negative. */
  function Magnitude(m: Money): int {
    if m < 0 then Wrap64(-m) else m
  }

  /** The printed amount without its leading sign. */
  function Unsigned(abs: int): string {
    FormatInt(TruncDiv(abs, 100), 0) + ['.'] + FormatInt(TruncMod(abs, 100), 2)
  }

  function MoneyString(m: Money): string {
    (if m < 0 then "-" else "") + Unsigned(Magnitude(m))
  }

  function ParseCents(frac: Option<string>): Option<int> {
    match frac
    case None => Some(0)
    case Some(digits) =>
      if |digits| == 0 then Some(0)
      else if |digits| > 2 then None
      else
        match ParseInt(digits)
        case None => None
        case Some(n) => Some(if |digits| == 1 then n * 10 else n)
  }

  /** An amount with its sign already taken off, in an int64. */
  function ParseUnsigned(s: string): Option<Money> {
    var (whole, frac) := Cut(s, '.');
    match ParseInt(if whole == "" then "0" else whole)
    case None => None
    case Some(w) =>
      match ParseCents(frac)
      case None => None
      case Some(cents) => Some(Wrap64(w * 100 + cents))
  }

  function ParseStripped(s: string): Option<Money> {
    if s == "" then Some(0)
    else
      var total := ParseUnsigned(TrimPrefix(TrimPrefix(s, '-'), '+'));
      if s[0] == '-' && total.Some? then Some(Wrap64(-total.value)) else total
  }

  function ParseMoney(text: string): Option<Money> {
    ParseStripped(Without(Without(TrimSpace(text), ','), ' '))
  }

  /** Nothing in a printed amount is trimmed, deleted or mistaken for a separator. */
  lemma AmountTextSurvives(s: string)
    requires IsAmountText(s)
    ensures Without(Without(TrimSpace(s), ','), ' ') == s
  {
    if s != [] {
      assert !IsSpace(s[0]) && !IsSpace(s[|s| - 1]);
    }
    WithoutAbsent(s, ',');
    WithoutAbsent(s, ' ');
  }

  lemma UnsignedText(abs: int)
    ensures IsAmountText(Unsigned(abs)) && IsAmountText("-" + Unsigned(abs))
    ensures Unsigned(abs)[0] != '+' && (abs >= 0 ==> Unsigned(abs)[0] != '-')
  {
    FormatText(TruncDiv(abs, 100), 0);
    FormatText(TruncMod(abs, 100), 2);
  }

  lemma CentsWidth(abs: int)
    requires abs >= 0 || abs == MIN_INT64
    ensures |FormatInt(TruncMod(abs, 100), 2)| == 2
  {
    var c := TruncMod(abs, 100);
    if abs < 0 {
      assert c == -8 && Digits(8) == ['8'];
      PaddedValue(8, 0);
    } else {
      assert c >= 10 ==> |Digits(c)| == |Digits(c / 10)| + 1;
      PaddedValue(c, 2 - |Digits(c)|);
    }
  }

  lemma PartsParse(whole: string, cents: string, w: int, c: int)
    requires whole != "" && (forall i :: 0 <= i < |whole| ==> whole[i] != '.') && |cents| == 2
    requires ParseInt(whole) == Some(w) && ParseInt(cents) == Some(c)
    ensures ParseUnsigned(whole + ['.'] + cents) == Some(Wrap64(w * 100 + c))
  {
    CutAt(whole, '.', cents);
  }

  lemma PartsOf(abs: int) returns (w: int, c: int)
    requires IsInt64(abs) && (abs >= 0 || abs == MIN_INT64)
    ensures w * 100 + c == abs && IsInt64(w) && IsInt64(c)
    ensures Unsigned(abs) == FormatInt(w, 0) + ['.'] + FormatInt(c, 2) && |FormatInt(c, 2)| == 2
  {
    w, c := TruncDiv(abs, 100), TruncMod(abs, 100);
    CentsWidth(abs);
  }

  lemma PartsRead(abs: nat) returns (whole: string, cents: string)
    ensures whole == FormatInt(abs / 100, 0) && cents == FormatInt(abs % 100, 2)
    ensures AllDigits(whole) && AllDigits(cents) && |cents| == 2
    ensures 100 * Value(whole) + Value(cents) == abs && whole == Digits(Value(whole))
  {
    whole, cents := FormatInt(abs / 100, 0), FormatInt(abs % 100, 2);
    CentsWidth(abs);
    CountReads(abs / 100, 0);
    CountReads(abs % 100, 2);
  }

  /** How an amount reads: a sign if it is negative, the whole units, a point and two digits of cents. */
  lemma MoneyReads(m: Money) returns (whole: string, cents: string)
    requires MIN_INT64 < m <= MAX_INT64
    ensures MoneyString(m) == (if m < 0 then "-" else "") + (whole + ['.'] + cents)
    ensures AllDigits(whole) && AllDigits(cents) && |cents| == 2
    ensures 100 * Value(whole) + Value(cents) == (if m < 0 then -m else m) && whole == Digits(Value(whole))
  {
    whole, cents := PartsRead(if m < 0 then -m else m);
    assert Magnitude(m) == if m < 0 then -m else m;
  }

  lemma InRangeIsKept(n: int)
    requires IsInt64(n)
    ensures Wrap64(n) == n
  {
  }

  lemma PrintedPartsParse(w: int, c: int)
    requires IsInt64(w) && IsInt64(c) && |FormatInt(c, 2)| == 2
    ensures ParseUnsigned(FormatInt(w, 0) + ['.'] + FormatInt(c, 2)) == Some(Wrap64(w * 100 + c))
  {
    FormatText(w, 0);
    ParseFormatted(w, 0);
    ParseFormatted(c, 2);
    PartsParse(FormatInt(w, 0), FormatInt(c, 2), w, c);
  }

  lemma UnsignedParses(abs: int)
    requires IsInt64(abs) && (abs >= 0 || abs == MIN_INT64)
    ensures ParseUnsigned(Unsigned(abs)) == Some(abs)
  {
    var w, c := PartsOf(abs);
    PrintedPartsParse(w, c);
    InRangeIsKept(abs);
  }

  lemma MagnitudeWraps(m: Money)
    requires IsInt64(m)
    ensures var abs := Magnitude(m);
            IsInt64(abs) && (abs >= 0 || abs == MIN_INT64) && (m < 0 ==> Wrap64(-abs) == m)
  {
  }

  lemma SignIsTakenOff(neg: bool, body: string)
    requires body != "" && body[0] != '+' && (!neg ==> body[0] != '-')
    ensures var s := (if neg then "-" else "") + body;
            s != "" && (s[0] == '-' <==> neg) && TrimPrefix(TrimPrefix(s, '-'), '+') == body
  {
    assert ("-" + body)[1..] == body;
    assert "" + body == body;
  }

  /**
  Every int64 amount comes back from its own print-out. The smallest int64 has no positive
  counterpart, so it prints with two signs; parsing wraps a second time and still restores it.
  */
  lemma MoneyRoundTrip(m: Money)
    requires IsInt64(m)
    ensures ParseMoney(MoneyString(m)) == Some(m)
  {
    MagnitudeWraps(m);
    var body := Unsigned(Magnitude(m));
    UnsignedText(Magnitude(m));
    UnsignedParses(Magnitude(m));
    AmountTextSurvives(MoneyString(m));
    SignIsTakenOff(m < 0, body);
  }
}
