/** Lists in the order a query asks for: the wanted ids from 1 to n, put in place one by one. */
module Ordering {
  import opened Sums

  type Before = (int, int) -> bool

  function Insert(ids: seq<int>, id: int, before: Before): seq<int> {
    if ids == [] then [id]
    else if before(id, ids[|ids| - 1]) then Insert(ids[..|ids| - 1], id, before) + [ids[|ids| - 1]]
    else ids + [id]
  }

  function Ordered(n: nat, wanted: int -> bool, before: Before): seq<int> {
    if n == 0 then []
    else
      var rest := Ordered(n - 1, wanted, before);
      if wanted(n) then Insert(rest, n, before) else rest
  }

  /** Of any two different ids one goes first, and going first is transitive. */
  ghost predicate IsOrder(n: nat, before: Before) {
    && (forall a, b :: 1 <= a <= n && 1 <= b <= n && a != b ==> before(a, b) || before(b, a))
    && (forall a :: 1 <= a <= n ==> !before(a, a))
    && forall a, b, c :: 1 <= a <= n && 1 <= b <= n && 1 <= c <= n && before(a, b) && before(b, c) ==> before(a, c)
  }

  ghost predicate InOrder(ids: seq<int>, before: Before) {
    forall i, j :: 0 <= i < j < |ids| ==> before(ids[i], ids[j])
  }

  ghost predicate AreIds(ids: seq<int>, n: nat) {
    forall i :: 0 <= i < |ids| ==> 1 <= ids[i] <= n
  }

  lemma {:induction false} InsertIsExact(ids: seq<int>, id: int, before: Before)
    ensures |Insert(ids, id, before)| == |ids| + 1
    ensures forall x :: x in Insert(ids, id, before) <==> x == id || x in ids
  {
    if ids != [] && before(id, ids[|ids| - 1]) {
      InsertIsExact(ids[..|ids| - 1], id, before);
      assert ids == ids[..|ids| - 1] + [ids[|ids| - 1]];
    }
  }

  lemma {:induction false} InsertKeepsOrder(ids: seq<int>, id: int, before: Before, n: nat)
    requires IsOrder(n, before) && InOrder(ids, before) && AreIds(ids, n) && 1 <= id <= n && id !in ids
    ensures InOrder(Insert(ids, id, before), before) && AreIds(Insert(ids, id, before), n)
  {
    InsertIsExact(ids, id, before);
    if ids != [] {
      var rest, last := ids[..|ids| - 1], ids[|ids| - 1];
      if before(id, last) {
        InsertKeepsOrder(rest, id, before, n);
        InsertIsExact(rest, id, before);
        var front := Insert(rest, id, before);
        forall i | 0 <= i < |front|
          ensures before(front[i], last) && 1 <= front[i] <= n
        {
          assert front[i] in front;
        }
      } else {
        forall i | 0 <= i < |ids|
          ensures before(ids[i], id)
        {
          assert i < |ids| - 1 ==> before(ids[i], last);
        }
      }
    }
  }

  /** The list holds exactly the wanted ids, each once, in the order asked for. */
  lemma {:induction false} OrderedIsExact(n: nat, wanted: int -> bool, before: Before)
    requires IsOrder(n, before)
    ensures var ids := Ordered(n, wanted, before);
            && InOrder(ids, before) && AreIds(ids, n)
            && forall id :: id in ids <==> 1 <= id <= n && wanted(id)
  {
    if n > 0 {
      OrderedIsExact(n - 1, wanted, before);
      if wanted(n) {
        InsertKeepsOrder(Ordered(n - 1, wanted, before), n, before, n);
        InsertIsExact(Ordered(n - 1, wanted, before), n, before);
      }
    }
  }

  lemma {:induction false} SumInsert(ids: seq<int>, id: int, before: Before, f: int -> int)
    ensures Sum(Insert(ids, id, before), f) == Sum(ids, f) + f(id)
  {
    if ids == [] {
      SumSnoc([], id, f);
    } else if before(id, ids[|ids| - 1]) {
      SumInsert(ids[..|ids| - 1], id, before, f);
      SumSnoc(Insert(ids[..|ids| - 1], id, before), ids[|ids| - 1], f);
    } else {
      SumSnoc(ids, id, f);
    }
  }

  /** Putting all ids in order changes no sum over them. */
  lemma {:induction false} SumOrdered(n: nat, before: Before, f: int -> int)
    ensures Sum(Ordered(n, _ => true, before), f) == SumIds(n, f)
  {
    if n > 0 {
      SumOrdered(n - 1, before, f);
      SumInsert(Ordered(n - 1, _ => true, before), n, before, f);
    }
  }
}
