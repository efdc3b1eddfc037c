/** Optional values: a missing row, an unset date, an answer that may not exist. */
module Options {
  datatype Option<+T> = None | Some(value: T) {
    function GetOr(default: T): T {
      if Some? then value else default
    }
  }
}

/**
The pieces of Go's string handling the amounts and document numbers go through: decimal
formatting with a width, integer parsing, trimming, deleting a character and cutting at one.
*/
module Text {
  import opened Options

  const MAX_INT64: int := 0x7fff_ffff_ffff_ffff
  const MIN_INT64: int := -0x8000_0000_0000_0000

  /** Two's complement: the int64 an unbounded result is stored as. */
  function Wrap64(n: int): (w: int)
    ensures MIN_INT64 <= w <= MAX_INT64
    ensures MIN_INT64 <= n <= MAX_INT64 ==> w == n
  {
    (n - MIN_INT64) % 0x1_0000_0000_0000_0000 + MIN_INT64
  }

  // ---- decimal digits ----

  predicate IsDigit(c: char) {
    '0' <= c <= '9'
  }

  predicate AllDigits(s: string) {
    forall i :: 0 <= i < |s| ==> IsDigit(s[i])
  }

  function DigitChar(d: int): char
    requires 0 <= d < 10
  {
    '0' + d as char
  }

  function Digits(n: nat): string {
    if n < 10 then [DigitChar(n)] else Digits(n / 10) + [DigitChar(n % 10)]
  }

  function Value(s: string): nat
    requires AllDigits(s)
  {
    if s == [] then 0 else 10 * Value(s[..|s| - 1]) + DigitValue(s[|s| - 1])
  }

  function DigitValue(c: char): nat
    requires IsDigit(c)
  {
    (c as int) - ('0' as int)
  }

  lemma ValueSnoc(s: string, c: char)
    requires AllDigits(s) && IsDigit(c)
    ensures AllDigits(s + [c]) && Value(s + [c]) == 10 * Value(s) + DigitValue(c)
  {
    assert (s + [c])[..|s|] == s;
  }

  lemma {:induction false} ValueOfDigits(n: nat)
    ensures AllDigits(Digits(n)) && Digits(n) != [] && Value(Digits(n)) == n
  {
    ValueSnoc([], DigitChar(n % 10));
    if n >= 10 {
      ValueOfDigits(n / 10);
      ValueSnoc(Digits(n / 10), DigitChar(n % 10));
    }
  }

  function Zeros(k: int): string {
    if k <= 0 then "" else Zeros(k - 1) + ['0']
  }

  lemma {:induction false} ZerosAreNothing(k: int)
    ensures AllDigits(Zeros(k)) && Value(Zeros(k)) == 0 && |Zeros(k)| == if k > 0 then k else 0
  {
    if k > 0 {
      ZerosAreNothing(k - 1);
      ValueSnoc(Zeros(k - 1), '0');
    }
  }

  /** The digits of n behind k zeros. */
  function Padded(n: nat, k: int): string {
    Zeros(k) + Digits(n)
  }

  lemma {:induction false} ValueAfterZeros(zeros: string, s: string)
    requires AllDigits(zeros) && AllDigits(s) && Value(zeros) == 0
    ensures Value(zeros + s) == Value(s)
  {
    if s == [] {
      assert zeros + s == zeros;
    } else {
      var rest, last := s[..|s| - 1], s[|s| - 1];
      ValueAfterZeros(zeros, rest);
      ValueSnoc(zeros + rest, last);
      assert zeros + s == (zeros + rest) + [last];
    }
  }

  lemma PaddedValue(n: nat, k: int)
    ensures AllDigits(Padded(n, k)) && Padded(n, k) != [] && Value(Padded(n, k)) == n
    ensures |Padded(n, k)| == (if k > 0 then k else 0) + |Digits(n)|
  {
    ValueOfDigits(n);
    ZerosAreNothing(k);
    ValueAfterZeros(Zeros(k), Digits(n));
  }

  /** The verb `%0*d`: at least `width` characters, zeros between the sign and the digits. */
  function FormatInt(n: int, width: int): string {
    if n < 0 then "-" + Padded(-n, width - 1 - |Digits(-n)|)
    else Padded(n, width - |Digits(n)|)
  }

  /** A count in decimal: padded with zeros up to the width, and with none beyond it. */
  lemma CountReads(n: nat, width: int)
    ensures var s := FormatInt(n, width);
            s != "" && AllDigits(s) && Value(s) == n && |s| >= width && (|s| > width ==> s == Digits(n))
  {
    PaddedValue(n, width - |Digits(n)|);
    if |Digits(n)| > width {
      NoZeros(width - |Digits(n)|, Digits(n));
    }
  }

  lemma NoZeros(k: int, s: string)
    requires k <= 0
    ensures Zeros(k) + s == s
  {
  }

  /** `strconv.ParseInt(s, 10, 64)`: an optional sign, digits, and a range check. */
  function ParseInt(s: string): Option<int> {
    var body := if s != [] && (s[0] == '-' || s[0] == '+') then s[1..] else s;
    if body == [] || !AllDigits(body) then None
    else
      var n: int := if s[0] == '-' then 0 - Value(body) else Value(body);
      if MIN_INT64 <= n <= MAX_INT64 then Some(n) else None
  }

  lemma ParseDigits(body: string, n: nat)
    requires AllDigits(body) && body != [] && Value(body) == n
    ensures n <= MAX_INT64 ==> ParseInt(body) == Some(n)
    ensures 0 - n >= MIN_INT64 ==> ParseInt(['-'] + body) == Some(0 - n)
  {
    assert IsDigit(body[0]);
    assert (['-'] + body)[1..] == body;
  }

  /** Every number in int64 range comes back from its own print-out, whatever the padding. */
  lemma ParseFormatted(n: int, width: int)
    requires MIN_INT64 <= n <= MAX_INT64
    ensures ParseInt(FormatInt(n, width)) == Some(n)
  {
    var m := if n < 0 then 0 - n else n;
    var zeros := (if n < 0 then width - 1 else width) - |Digits(m)|;
    PaddedValue(m, zeros);
    ParseDigits(Padded(m, zeros), m);
    assert FormatInt(n, width) == if n < 0 then ['-'] + Padded(m, zeros) else Padded(m, zeros);
  }

  /** The characters of an amount: digits, the minus sign and the decimal point. */
  predicate IsAmountText(s: string) {
    forall i :: 0 <= i < |s| ==> IsDigit(s[i]) || s[i] == '-' || s[i] == '.'
  }

  lemma FormatText(n: int, width: int)
    ensures var s := FormatInt(n, width);
            && s != []
            && IsAmountText(s)
            && (s[0] == '-' <==> n < 0)
            && s[0] != '+'
            && forall i :: 0 <= i < |s| ==> s[i] != '.'
  {
    if n < 0 {
      var body := Padded(-n, width - 1 - |Digits(-n)|);
      PaddedValue(-n, width - 1 - |Digits(-n)|);
      assert FormatInt(n, width) == ['-'] + body;
      SignedText(body);
    } else {
      var body := Padded(n, width - |Digits(n)|);
      PaddedValue(n, width - |Digits(n)|);
      assert FormatInt(n, width) == body;
      assert IsDigit(body[0]);
    }
  }

  lemma SignedText(body: string)
    requires AllDigits(body)
    ensures var s := ['-'] + body; IsAmountText(s) && forall i :: 0 <= i < |s| ==> s[i] != '.'
  {
  }

  // ---- trimming, deleting, cutting ----

  /** `unicode.IsSpace`. */
  predicate IsSpace(c: char) {
    '\t' <= c <= '\r' || c == ' ' || c == '\U{0085}' || c == '\U{00A0}' || c == '\U{1680}'
    || '\U{2000}' <= c <= '\U{200a}' || c == '\U{2028}' || c == '\U{2029}' || c == '\U{202f}'
    || c == '\U{205f}' || c == '\U{3000}'
  }

  function TrimSpace(s: string): string {
    if s == [] then s
    else if IsSpace(s[0]) then TrimSpace(s[1..])
    else if IsSpace(s[|s| - 1]) then TrimSpace(s[..|s| - 1])
    else s
  }

  predicate AllSpace(s: string) {
    forall i :: 0 <= i < |s| ==> IsSpace(s[i])
  }

  lemma OneMoreBefore(s: string, left: string, middle: string, right: string)
    requires s != "" && s[1..] == left + middle + right
    ensures s == ([s[0]] + left) + middle + right
  {
    assert s == [s[0]] + s[1..];
  }

  lemma OneMoreAfter(s: string, left: string, middle: string, right: string)
    requires s != "" && s[..|s| - 1] == left + middle + right
    ensures s == left + middle + (right + [s[|s| - 1]])
  {
    assert s == s[..|s| - 1] + [s[|s| - 1]];
  }

  /** Trimming takes blanks off both ends, all of them, and nothing else. */
  lemma {:induction false} TrimTakesTheBlanks(s: string) returns (left: string, right: string)
    ensures s == left + TrimSpace(s) + right && AllSpace(left) && AllSpace(right)
    ensures TrimSpace(s) != "" ==> !IsSpace(TrimSpace(s)[0]) && !IsSpace(TrimSpace(s)[|TrimSpace(s)| - 1])
    decreases |s|
  {
    left, right := "", "";
    if s != "" && IsSpace(s[0]) {
      left, right := TrimTakesTheBlanks(s[1..]);
      OneMoreBefore(s, left, TrimSpace(s[1..]), right);
      left := [s[0]] + left;
    } else if s != "" && IsSpace(s[|s| - 1]) {
      left, right := TrimTakesTheBlanks(s[..|s| - 1]);
      OneMoreAfter(s, left, TrimSpace(s[..|s| - 1]), right);
      right := right + [s[|s| - 1]];
    }
  }

  /** `strings.ReplaceAll(s, c, "")`. */
  function Without(s: string, c: char): string {
    if s == [] then s
    else (if s[0] == c then [] else [s[0]]) + Without(s[1..], c)
  }

  lemma {:induction false} WithoutAbsent(s: string, c: char)
    requires forall i :: 0 <= i < |s| ==> s[i] != c
    ensures Without(s, c) == s
  {
    if s != [] {
      WithoutAbsent(s[1..], c);
      assert s == [s[0]] + s[1..];
    }
  }

  function TrimPrefix(s: string, c: char): string {
    if s != [] && s[0] == c then s[1..] else s
  }

  /** `strings.Cut`: the text before the first separator, and the text after it if there is one. */
  function Cut(s: string, sep: char): (string, Option<string>) {
    if s == [] then (s, None)
    else if s[0] == sep then ([], Some(s[1..]))
    else
      var (before, after) := Cut(s[1..], sep);
      ([s[0]] + before, after)
  }

  lemma {:induction false} CutAt(before: string, sep: char, after: string)
    requires forall i :: 0 <= i < |before| ==> before[i] != sep
    ensures Cut(before + [sep] + after, sep) == (before, Some(after))
  {
    var s := before + [sep] + after;
    if before == [] {
      assert s[1..] == after;
    } else {
      assert s[1..] == before[1..] + [sep] + after;
      CutAt(before[1..], sep, after);
      assert [before[0]] + before[1..] == before;
    }
  }

  // ---- order ----

  /** Strings by their first difference. */
  predicate Less(a: string, b: string) {
    if b == "" then false
    else if a == "" then true
    else if a[0] != b[0] then a[0] < b[0]
    else Less(a[1..], b[1..])
  }

  /** The strings agree up to here and differ here, the first having the smaller character. */
  predicate DiffersAt(a: string, b: string, k: int) {
    0 <= k < |a| && k < |b| && a[..k] == b[..k] && a[k] < b[k]
  }

  /** Dictionary order: a proper prefix comes first, otherwise the first difference decides. */
  lemma {:induction false} LessIsDictionaryOrder(a: string, b: string)
    ensures Less(a, b) <==> (|a| < |b| && b[..|a|] == a) || exists k :: DiffersAt(a, b, k)
    decreases |a|
  {
    if a != "" && b != "" && a[0] == b[0] {
      LessIsDictionaryOrder(a[1..], b[1..]);
      assert a == [a[0]] + a[1..] && b == [b[0]] + b[1..];
      LaterDifference(a[0], a[1..], b[1..]);
    } else if a != "" && b != "" && a[0] < b[0] {
      assert DiffersAt(a, b, 0);
    }
  }

  lemma LaterDifference(c: char, a: string, b: string)
    ensures (exists k :: DiffersAt([c] + a, [c] + b, k)) <==> exists k :: DiffersAt(a, b, k)
  {
    if k :| DiffersAt(a, b, k) {
      assert ([c] + a)[..k + 1] == [c] + a[..k] && ([c] + b)[..k + 1] == [c] + b[..k];
      assert DiffersAt([c] + a, [c] + b, k + 1);
    }
    if k :| DiffersAt([c] + a, [c] + b, k) {
      assert k > 0;
      assert a[..k - 1] == ([c] + a)[..k][1..] && b[..k - 1] == ([c] + b)[..k][1..];
      assert DiffersAt(a, b, k - 1);
    }
  }

  lemma {:induction false} LessIsTotal(a: string, b: string)
    ensures a != b ==> Less(a, b) != Less(b, a)
    ensures !Less(a, a)
    decreases |a|
  {
    if a != "" {
      LessIsTotal(a[1..], if b != "" then b[1..] else "");
      if b != "" && a[0] == b[0] && a[1..] == b[1..] {
        assert a == [a[0]] + a[1..] == b;
      }
    }
  }

  lemma {:induction false} LessIsTransitive(a: string, b: string, c: string)
    requires Less(a, b) && Less(b, c)
    ensures Less(a, c)
    decreases |a|
  {
    if a != "" && a[0] == b[0] == c[0] {
      LessIsTransitive(a[1..], b[1..], c[1..]);
    }
  }
}
