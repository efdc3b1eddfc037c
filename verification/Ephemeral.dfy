/**
The pool of conversations held in memory: bounded in age and in number, with the least recently
used going first and ties broken by session id.
*/
module EphemeralPool {
  import opened Options
  import opened Text

  /** A message, and whether its conversation was on the record when it was said. */
  datatype Message = Message(text: string, onRecord: bool)

  datatype Held = Held(messages: seq<Message>, lastUsed: int)

  type Pool = map<string, Held>

  datatype Limits = Limits(maxSessions: nat, ttl: int)

  // ---- the order sessions are evicted in ----

  /** Goes before in the order of eviction. */
  predicate Older(pool: Pool, a: string, b: string)
    requires a in pool && b in pool
  {
    pool[a].lastUsed < pool[b].lastUsed || (pool[a].lastUsed == pool[b].lastUsed && Less(a, b))
  }

  lemma OlderIsTotal(pool: Pool, a: string, b: string)
    requires a in pool && b in pool
    ensures a != b ==> Older(pool, a, b) != Older(pool, b, a)
    ensures !Older(pool, a, a)
  {
    LessIsTotal(a, b);
  }

  lemma OlderIsTransitive(pool: Pool, a: string, b: string, c: string)
    requires a in pool && b in pool && c in pool && Older(pool, a, b) && Older(pool, b, c)
    ensures Older(pool, a, c)
  {
    if Less(a, b) && Less(b, c) {
      LessIsTransitive(a, b, c);
    }
  }

  // ---- what eviction is for ----

  function Unexpired(pool: Pool, now: int, ttl: int): Pool {
    map id | id in pool && now - pool[id].lastUsed <= ttl :: pool[id]
  }

  function Newer(pool: Pool, id: string): set<string>
    requires id in pool
  {
    set other | other in pool && Older(pool, id, other)
  }

  /** The k newest: those with fewer than k newer than themselves. */
  function Newest(pool: Pool, k: nat): Pool {
    map id | id in pool && |Newer(pool, id)| < k :: pool[id]
  }

  function Evicted(pool: Pool, now: int, limits: Limits): Pool {
    Newest(Unexpired(pool, now, limits.ttl), limits.maxSessions)
  }

  ghost predicate IsOldest(pool: Pool, id: string) {
    id in pool && forall other :: other in pool && other != id ==> Older(pool, id, other)
  }

  lemma SubsetSize<T>(a: set<T>, b: set<T>)
    requires a <= b
    ensures |a| <= |b|
    ensures a < b ==> |a| < |b|
  {
    assert b == a + (b - a);
    assert |b| == |a| + |b - a|;
    if a < b {
      assert b - a != {};
    }
  }

  /** A pool within the limit is kept whole. */
  lemma SmallPoolIsKept(pool: Pool, k: nat)
    requires |pool| <= k
    ensures Newest(pool, k) == pool
  {
    forall id | id in pool
      ensures |Newer(pool, id)| < k
    {
      OlderIsTotal(pool, id, id);
      assert Newer(pool, id) <= pool.Keys - {id};
      SubsetSize(Newer(pool, id), pool.Keys - {id});
    }
  }

  /** Dropping the oldest of too many changes nothing about which are the newest k. */
  lemma DroppingTheOldest(pool: Pool, id: string, k: nat)
    requires IsOldest(pool, id) && |pool| > k
    ensures Newest(pool - {id}, k) == Newest(pool, k)
    ensures |pool - {id}| == |pool| - 1
  {
    var rest := pool - {id};
    assert rest.Keys == pool.Keys - {id};
    OlderIsTotal(pool, id, id);
    assert Newer(pool, id) == rest.Keys;
    assert |rest.Keys| == |pool.Keys| - 1;
    forall other | other in rest
      ensures Newer(rest, other) == Newer(pool, other)
    {
      OlderIsTotal(pool, id, other);
    }
  }

  /** Every non-empty pool has an oldest session. */
  lemma {:induction false} OldestExists(pool: Pool, ids: set<string>) returns (oldest: string)
    requires ids != {} && ids <= pool.Keys
    ensures oldest in ids && forall other :: other in ids && other != oldest ==> Older(pool, oldest, other)
    decreases |ids|
  {
    var id :| id in ids;
    if ids == {id} {
      oldest := id;
    } else {
      assert ids - {id} != {};
      oldest := OldestExists(pool, ids - {id});
      OlderIsTotal(pool, id, oldest);
      if Older(pool, id, oldest) {
        forall other | other in ids && other != id
          ensures Older(pool, id, other)
        {
          if other != oldest {
            OlderIsTransitive(pool, id, oldest, other);
          }
        }
        oldest := id;
      }
    }
  }

  /** How many are kept. */
  lemma {:induction false} NewestSize(pool: Pool, k: nat)
    ensures |Newest(pool, k)| == if |pool| <= k then |pool| else k
    decreases |pool|
  {
    if |pool| <= k {
      SmallPoolIsKept(pool, k);
    } else {
      assert pool.Keys != {};
      var oldest := OldestExists(pool, pool.Keys);
      DroppingTheOldest(pool, oldest, k);
      NewestSize(pool - {oldest}, k);
    }
  }

  /** Everything kept is newer than everything dropped, and is kept as it was. */
  lemma KeptAreNewer(pool: Pool, k: nat, kept: string, dropped: string)
    requires kept in Newest(pool, k) && dropped in pool && dropped !in Newest(pool, k)
    ensures Newest(pool, k)[kept] == pool[kept]
    ensures Older(pool, dropped, kept)
  {
    OlderIsTotal(pool, kept, dropped);
    if Older(pool, kept, dropped) {
      forall id | id in Newer(pool, dropped)
        ensures id in Newer(pool, kept)
      {
        OlderIsTransitive(pool, kept, dropped, id);
      }
      OlderIsTotal(pool, dropped, dropped);
      assert dropped in Newer(pool, kept) && dropped !in Newer(pool, dropped);
      SubsetSize(Newer(pool, dropped), Newer(pool, kept));
    }
  }

  // ---- picking the victim ----

  /** The scan for a victim over the ids in the order the map happens to yield them. "" stands for none yet. */
  function Pick(pool: Pool, order: seq<string>): (best: string)
    requires forall i :: 0 <= i < |order| ==> order[i] in pool
    ensures best == "" || best in pool
  {
    if order == [] then ""
    else
      var best := Pick(pool, order[..|order| - 1]);
      var id := order[|order| - 1];
      if best == "" || Older(pool, id, best) then id else best
  }

  /** Whatever the iteration order, the scan ends at the oldest session, unless that one's id is empty. */
  lemma {:induction false} PickIsOldest(pool: Pool, order: seq<string>, oldest: string)
    requires forall i :: 0 <= i < |order| ==> order[i] in pool
    requires IsOldest(pool, oldest) && oldest != "" && oldest in order
    ensures Pick(pool, order) == oldest
  {
    var rest, id := order[..|order| - 1], order[|order| - 1];
    var best := Pick(pool, rest);
    if id == oldest {
      if best != "" {
        OlderIsTotal(pool, oldest, best);
      }
    } else {
      assert order == rest + [id];
      PickIsOldest(pool, rest, oldest);
      OlderIsTotal(pool, id, oldest);
    }
  }

  /** The empty id, if it is held and has not expired, is among those that stay. */
  predicate EmptyStays(pool: Pool, now: int, limits: Limits) {
    "" in Unexpired(pool, now, limits.ttl) ==> "" in Evicted(pool, now, limits)
  }

  /** The oldest of too many is not among the newest. */
  lemma OldestIsNotKept(pool: Pool, oldest: string, k: nat)
    requires IsOldest(pool, oldest) && |pool| > k
    ensures oldest !in Newest(pool, k)
  {
    OlderIsTotal(pool, oldest, oldest);
    assert Newer(pool, oldest) == pool.Keys - {oldest};
  }

  /** An empty id that is the oldest is taken for "none yet": the scan passes it over, or finds nothing. */
  lemma EmptyIdEscapes()
    ensures var pool: Pool := map["" := Held([], 1), "a" := Held([], 2)];
            && IsOldest(pool, "")
            && Pick(pool, ["", "a"]) == "a"
            && Pick(pool, ["a", ""]) == ""
  {
    var pool: Pool := map["" := Held([], 1), "a" := Held([], 2)];
    var a, b := ["", "a"], ["a", ""];
    assert a[..1] == [""] && b[..1] == ["a"] && a[..1][..0] == [] && b[..1][..0] == [];
    assert Pick(pool, a[..1]) == "" && Pick(pool, b[..1]) == "a";
  }

  // ---- the pool's operations on values ----

  function Appended(pool: Pool, id: string, msgs: seq<Message>, now: int, limits: Limits): Pool {
    if msgs == [] then pool
    else
      var before := if id in pool then pool[id].messages else [];
      Evicted(pool[id := Held(before + msgs, now)], now, limits)
  }

  function Seeded(pool: Pool, id: string, msgs: seq<Message>, now: int, limits: Limits): Pool {
    Evicted(pool[id := Held(msgs, now)], now, limits)
  }

  function Touched(pool: Pool, id: string, now: int): Pool {
    if id in pool then pool[id := pool[id].(lastUsed := now)] else pool
  }

  /** The other unexpired sessions that would still be newer than one written now. */
  function Ahead(pool: Pool, id: string, now: int, ttl: int): set<string> {
    set other | other in pool && other != id && now - pool[other].lastUsed <= ttl
                && (now < pool[other].lastUsed || (now == pool[other].lastUsed && Less(id, other)))
  }

  /** Whether a session written now would outlast the eviction that follows, as anyone can tell before writing. */
  predicate Survives(pool: Pool, id: string, now: int, limits: Limits) {
    limits.ttl >= 0 && |Ahead(pool, id, now, limits.ttl)| < limits.maxSessions
  }

  lemma WrittenSurvives(pool: Pool, id: string, msgs: seq<Message>, now: int, limits: Limits)
    ensures id in Evicted(pool[id := Held(msgs, now)], now, limits) <==> Survives(pool, id, now, limits)
  {
    var grown := Unexpired(pool[id := Held(msgs, now)], now, limits.ttl);
    if limits.ttl >= 0 {
      OlderIsTotal(grown, id, id);
      forall other
        ensures other in Newer(grown, id) <==> other in Ahead(pool, id, now, limits.ttl)
      {
      }
      assert Newer(grown, id) == Ahead(pool, id, now, limits.ttl);
    }
  }

  /** The other sessions used in this very instant that have a greater id. */
  function Abreast(pool: Pool, id: string, now: int): set<string> {
    set other | other in pool && other != id && pool[other].lastUsed == now && Less(id, other)
  }

  /**
  While the clock does not run backwards, the conversation just written to survives its own
  eviction exactly when fewer than the maximum share its instant with a greater id.
  */
  lemma JustWrittenSurvives(pool: Pool, id: string, msgs: seq<Message>, now: int, limits: Limits)
    requires msgs != [] && limits.ttl >= 0
    requires forall other :: other in pool ==> pool[other].lastUsed <= now
    ensures id in Appended(pool, id, msgs, now, limits) <==> |Abreast(pool, id, now)| < limits.maxSessions
  {
    WrittenSurvives(pool, id, (if id in pool then pool[id].messages else []) + msgs, now, limits);
    assert Ahead(pool, id, now, limits.ttl) == Abreast(pool, id, now);
  }

  // ---- the pool itself ----

  class Ephemeral {
    var sessions: Pool
    const maxSessions: nat
    const ttl: int

    ghost predicate Valid()
      reads this
    {
      maxSessions > 0 && ttl > 0
    }

    function Bounds(): Limits {
      Limits(maxSessions, ttl)
    }

    constructor (maxSessions: int, ttl: int)
      ensures Valid() && sessions == map[]
      ensures this.maxSessions == if maxSessions <= 0 then 64 else maxSessions
      ensures this.ttl == if ttl <= 0 then 12 * 3600 else ttl
    {
      this.maxSessions := if maxSessions <= 0 then 64 else maxSessions;
      this.ttl := if ttl <= 0 then 12 * 3600 else ttl;
      sessions := map[];
    }

    method Append(id: string, msgs: seq<Message>, now: int)
      requires Valid()
      modifies this
      ensures Valid()
      ensures msgs == [] ==> sessions == old(sessions)
      ensures msgs != [] ==>
        var grown := old(sessions)[id := Held((if id in old(sessions) then old(sessions)[id].messages else []) + msgs, now)];
        && (sessions == Appended(old(sessions), id, msgs, now, Bounds()) <==> EmptyStays(grown, now, Bounds()))
        && (EmptyStays(grown, now, Bounds()) ==> |sessions| <= maxSessions)
    {
      if msgs == [] {
        return;
      }
      if id !in sessions {
        sessions := sessions[id := Held([], 0)];
      }
      sessions := sessions[id := Held(sessions[id].messages + msgs, now)];
      assert sessions == old(sessions)[id := sessions[id]];
      EvictLocked(now);
    }

    method Seed(id: string, msgs: seq<Message>, now: int)
      requires Valid()
      modifies this
      ensures Valid()
      ensures var grown := old(sessions)[id := Held(msgs, now)];
              && (sessions == Seeded(old(sessions), id, msgs, now, Bounds()) <==> EmptyStays(grown, now, Bounds()))
              && (EmptyStays(grown, now, Bounds()) ==> |sessions| <= maxSessions)
    {
      sessions := sessions[id := Held(msgs, now)];
      EvictLocked(now);
    }

    method Messages(id: string, now: int) returns (r: Option<seq<Message>>)
      requires Valid()
      modifies this
      ensures Valid() && sessions == Touched(old(sessions), id, now)
      ensures r == if id in old(sessions) then Some(old(sessions)[id].messages) else None
    {
      if id !in sessions {
        return None;
      }
      sessions := sessions[id := sessions[id].(lastUsed := now)];
      return Some(sessions[id].messages);
    }

    method Drop(id: string)
      requires Valid()
      modifies this
      ensures Valid() && sessions == old(sessions) - {id}
    {
      sessions := sessions - {id};
    }

    /**
    Drops what expired, then the least recently used while there are too many. It leaves exactly
    the newest that fit if and only if the empty id is not one that has to go: that one is never
    dropped for its age.
    */
    method EvictLocked(now: int)
      requires Valid()
      modifies this
      ensures Valid()
      ensures sessions == Evicted(old(sessions), now, Bounds()) <==> EmptyStays(old(sessions), now, Bounds())
      ensures EmptyStays(old(sessions), now, Bounds()) ==> |sessions| <= maxSessions
    {
      ghost var before := sessions;
      DropExpired(now);
      ghost var live := sessions;
      while |sessions| > maxSessions
        invariant "" in sessions <==> "" in live
        invariant EmptyStays(before, now, Bounds()) ==> Newest(sessions, maxSessions) == Newest(live, maxSessions)
        decreases |sessions|
      {
        var oldest := OldestId();
        ghost var first := OldestExists(sessions, sessions.Keys);
        OldestIsNotKept(sessions, first, maxSessions);
        if oldest == "" {
          break;
        }
        if first != "" {
          DroppingTheOldest(sessions, oldest, maxSessions);
        }
        sessions := sessions - {oldest};
      }
      if EmptyStays(before, now, Bounds()) {
        SmallPoolIsKept(sessions, maxSessions);
      }
    }

    method DropExpired(now: int)
      modifies this
      ensures sessions == Unexpired(old(sessions), now, ttl)
    {
      ghost var before := sessions;
      var todo := sessions.Keys;
      while todo != {}
        invariant todo <= before.Keys
        invariant forall id :: id in sessions <==>
          id in before && (id in todo || now - before[id].lastUsed <= ttl)
        invariant forall id :: id in sessions ==> sessions[id] == before[id]
        decreases |todo|
      {
        var id :| id in todo;
        todo := todo - {id};
        if now - sessions[id].lastUsed > ttl {
          sessions := sessions - {id};
        }
      }
      assert sessions == Unexpired(before, now, ttl);
    }

    /** One pass over the sessions in whatever order the map yields them; "" when it finds nothing. */
    method OldestId() returns (oldest: string)
      ensures oldest == "" || oldest in sessions
      ensures forall first :: first != "" && IsOldest(sessions, first) ==> oldest == first
    {
      oldest := "";
      var todo := sessions.Keys;
      ghost var order: seq<string> := [];
      while todo != {}
        invariant todo <= sessions.Keys
        invariant forall i :: 0 <= i < |order| ==> order[i] in sessions
        invariant forall id :: id in sessions ==> id in todo || id in order
        invariant oldest == Pick(sessions, order)
        decreases |todo|
      {
        var id :| id in todo;
        todo := todo - {id};
        if oldest == "" || Older(sessions, id, oldest) {
          oldest := id;
        }
        assert (order + [id])[..|order|] == order;
        order := order + [id];
      }
      forall first | first != "" && IsOldest(sessions, first)
        ensures oldest == first
      {
        PickIsOldest(sessions, order, first);
      }
    }
  }
}
