/**
Finite sums over sequences and over the ids 1..n, with the handful of laws every report and
every reconciliation in this project rests on. Both sums recurse on the last summand, which is
the order in which the tables they range over grow.
*/
module Sums {

  function Sum<T>(s: seq<T>, f: T -> int): int {
    if s == [] then 0 else Sum(s[..|s| - 1], f) + f(s[|s| - 1])
  }

  lemma SumSnoc<T>(s: seq<T>, x: T, f: T -> int)
    ensures Sum(s + [x], f) == Sum(s, f) + f(x)
  {
    assert (s + [x])[..|s|] == s;
  }

  lemma SumPrefix<T>(s: seq<T>, i: nat, f: T -> int)
    requires i < |s|
    ensures Sum(s[..i + 1], f) == Sum(s[..i], f) + f(s[i])
  {
    assert s[..i + 1] == s[..i] + [s[i]];
    SumSnoc(s[..i], s[i], f);
  }

  lemma {:induction false} SumConcat<T>(s: seq<T>, t: seq<T>, f: T -> int)
    ensures Sum(s + t, f) == Sum(s, f) + Sum(t, f)
  {
    if t == [] {
      assert s + t == s;
    } else {
      assert s + t == (s + t[..|t| - 1]) + [t[|t| - 1]];
      SumSnoc(s + t[..|t| - 1], t[|t| - 1], f);
      SumConcat(s, t[..|t| - 1], f);
    }
  }

  lemma SumAround<T>(left: seq<T>, x: T, right: seq<T>, f: T -> int)
    ensures Sum(left + [x] + right, f) == Sum(left + right, f) + f(x)
  {
    SumConcat(left + [x], right, f);
    SumSnoc(left, x, f);
    SumConcat(left, right, f);
  }

  /** Replacing one row replaces its summand. */
  lemma {:induction false} SumSet<T>(s: seq<T>, i: nat, x: T, f: T -> int)
    requires i < |s|
    ensures Sum(s[i := x], f) == Sum(s, f) - f(s[i]) + f(x)
  {
    var n := |s| - 1;
    if i == n {
      assert s[i := x][..n] == s[..n];
    } else {
      assert s[i := x][..n] == s[..n][i := x];
      SumSet(s[..n], i, x, f);
    }
  }

  lemma {:induction false} SumSame<T>(s: seq<T>, f: T -> int, g: T -> int)
    requires forall i :: 0 <= i < |s| ==> f(s[i]) == g(s[i])
    ensures Sum(s, f) == Sum(s, g)
  {
    if s != [] {
      SumSame(s[..|s| - 1], f, g);
    }
  }

  lemma {:induction false} SumAlong<T, U>(s: seq<T>, t: seq<U>, f: T -> int, g: U -> int)
    requires |s| == |t| && forall i :: 0 <= i < |s| ==> f(s[i]) == g(t[i])
    ensures Sum(s, f) == Sum(t, g)
    decreases |s|
  {
    if s != [] {
      SumAlong(s[..|s| - 1], t[..|t| - 1], f, g);
    }
  }

  /** A sum of signed combinations is the same combination of the sums. */
  lemma {:induction false} SumCombine<T>(s: seq<T>, f: T -> int, g: T -> int, h: T -> int, k: int)
    requires forall i :: 0 <= i < |s| ==> f(s[i]) == g(s[i]) + k * h(s[i])
    ensures Sum(s, f) == Sum(s, g) + k * Sum(s, h)
  {
    if s != [] {
      SumCombine(s[..|s| - 1], f, g, h, k);
    }
  }

  lemma {:induction false} SumNone<T>(s: seq<T>, f: T -> int)
    requires forall i :: 0 <= i < |s| ==> f(s[i]) == 0
    ensures Sum(s, f) == 0
  {
    if s != [] {
      SumNone(s[..|s| - 1], f);
    }
  }

  /** With no negative summand, the sum is at least any one of them, and at least any two. */
  lemma {:induction false} SumAtLeast<T>(s: seq<T>, i: nat, f: T -> int)
    requires i < |s|
    requires forall j :: 0 <= j < |s| ==> 0 <= f(s[j])
    ensures f(s[i]) <= Sum(s, f)
  {
    SumSet(s, i, s[i], f);
    SumNonNegative(s[..|s| - 1], f);
    if i < |s| - 1 {
      SumAtLeast(s[..|s| - 1], i, f);
    }
  }

  lemma {:induction false} SumNonNegative<T>(s: seq<T>, f: T -> int)
    requires forall j :: 0 <= j < |s| ==> 0 <= f(s[j])
    ensures 0 <= Sum(s, f)
  {
    if s != [] {
      SumNonNegative(s[..|s| - 1], f);
    }
  }

  lemma {:induction false} SumAtLeastTwo<T>(s: seq<T>, i: nat, j: nat, f: T -> int)
    requires i < j < |s|
    requires forall k :: 0 <= k < |s| ==> 0 <= f(s[k])
    ensures f(s[i]) + f(s[j]) <= Sum(s, f)
  {
    if j == |s| - 1 {
      SumAtLeast(s[..j], i, f);
    } else {
      SumAtLeastTwo(s[..|s| - 1], i, j, f);
    }
  }

  // ---- sums over the ids 1..n ----

  function SumIds(n: nat, f: int -> int): int {
    if n == 0 then 0 else SumIds(n - 1, f) + f(n)
  }

  lemma {:induction false} SumIdsSame(n: nat, f: int -> int, g: int -> int)
    requires forall i :: 1 <= i <= n ==> f(i) == g(i)
    ensures SumIds(n, f) == SumIds(n, g)
  {
    if n > 0 {
      SumIdsSame(n - 1, f, g);
    }
  }

  lemma {:induction false} SumIdsCombine(n: nat, f: int -> int, g: int -> int, h: int -> int, k: int)
    requires forall i :: 1 <= i <= n ==> f(i) == g(i) + k * h(i)
    ensures SumIds(n, f) == SumIds(n, g) + k * SumIds(n, h)
  {
    if n > 0 {
      SumIdsCombine(n - 1, f, g, h, k);
    }
  }

  lemma {:induction false} SumIdsNone(n: nat, f: int -> int)
    requires forall i :: 1 <= i <= n ==> f(i) == 0
    ensures SumIds(n, f) == 0
  {
    if n > 0 {
      SumIdsNone(n - 1, f);
    }
  }

  /** A summand that vanishes everywhere but at `at` is the whole sum. */
  lemma {:induction false} SumIdsOnly(n: nat, f: int -> int, at: int)
    requires 1 <= at <= n
    requires forall i :: 1 <= i <= n && i != at ==> f(i) == 0
    ensures SumIds(n, f) == f(at)
  {
    if at == n {
      SumIdsNone(n - 1, f);
    } else {
      SumIdsOnly(n - 1, f, at);
    }
  }
}
